/** From the caller to the wire: over whole runs, what goes out on a stream is what the caller it was opened
    for put into the channel. */
module CallerRequests {
  import opened Wire
  import opened Frames
  import opened Codec
  import HB = HeaderBlocks
  import opened Streams
  import opened Connection
  import opened Sender
  import opened Policy
  import opened Engine
  import opened Runs
  import EngineLaws
  import opened EngineTheorems
  import opened EngineObject
  import opened RequestDesk
  import opened Driver
  import opened DriverRuns
  import opened DriverTheorems

  type World = EngineLaws.World
  type Label = EngineLaws.Label

  // ---- Header blocks ------------------------------------------------------------------------------

  /** The header bytes of these frames, in order. */
  function BlockOf(fs: seq<H2Frame>): bytes {
    if fs == [] then []
    else (if fs[0].Headers? || fs[0].Continuation? then fs[0].headerBlock else []) + BlockOf(fs[1..])
  }

  lemma {:induction false} BlockAppend(a: seq<H2Frame>, b: seq<H2Frame>)
    ensures BlockOf(a + b) == BlockOf(a) + BlockOf(b)
  {
    if a == [] {
      assert a + b == b;
    } else {
      assert (a + b)[1..] == a[1..] + b;
      BlockAppend(a[1..], b);
    }
  }

  lemma {:induction false} BlockNone(fs: seq<H2Frame>)
    requires forall i :: 0 <= i < |fs| ==> fs[i].Data?
    ensures BlockOf(fs) == []
  {
    if fs != [] {
      BlockNone(fs[1..]);
    }
  }

  lemma BlockOne(f: H2Frame)
    requires f.Headers? || f.Continuation?
    ensures BlockOf([f]) == f.headerBlock
  {
    assert [f][1..] == [];
  }

  lemma {:induction false} ContinuationsCarry(sid: u32, block: bytes, maxFrame: nat)
    requires maxFrame > 0 && block != []
    ensures BlockOf(HB.Continuations(sid, block, maxFrame)) == block
    decreases |block|
  {
    if |block| <= maxFrame {
      BlockOne(Continuation(sid, block, true));
    } else {
      var f, later := Continuation(sid, block[..maxFrame], false), block[maxFrame..];
      ContinuationsCarry(sid, later, maxFrame);
      BlockAppend([f], HB.Continuations(sid, later, maxFrame));
      BlockOne(f);
    }
  }

  lemma SplitCarries(sid: u32, block: bytes, endStream: bool, priority: Option<PrioritySpec>, maxFrame: nat)
    requires maxFrame > 0
    ensures BlockOf(HB.SplitBlock(sid, block, endStream, priority, maxFrame)) == block
  {
    var room := HB.FirstRoom(priority, maxFrame);
    if |block| <= room {
      BlockOne(Headers(sid, block, endStream, true, priority, None));
    } else {
      var f, later := Headers(sid, block[..room], endStream, false, priority, None), block[room..];
      ContinuationsCarry(sid, later, maxFrame);
      BlockAppend([f], HB.Continuations(sid, later, maxFrame));
      BlockOne(f);
    }
  }

  // ---- What was asked -----------------------------------------------------------------------------

  /** The request a caller put into the channel under this id. */
  function Enqueued(t: Trace, id: nat): Option<Request> {
    match t
    case Begun(_, _) => None
    case Then(before, a, _, _) => if a.Enqueue? && a.id == id then Some(a.request) else Enqueued(before, id)
  }

  /** The request that arrived in this place: the one the run began with, or what was enqueued under the id
      the loop took then. */
  function Requested(t: Trace, rank: nat): Option<Request> {
    match t
    case Begun(first, _) => if rank == 0 then first else None
    case Then(before, a, o, _) =>
      if a.OnCommand? && before.s.channel != [] && !o.gone(before.s.channel[0].id) && rank == before.s.desk.arrivals
      then Enqueued(before, before.s.channel[0].id)
      else Requested(before, rank)
  }

  /** The stream carries the request. */
  predicate OpenedAs(op: Opened, r: Request) {
    && op.body == r.body && BlockOf(op.head) == r.block
    && op.head != [] && op.head[0].Headers? && op.head[0].priority == r.priority
  }

  type Asking = nat -> Option<Request>

  /** Queue and streams carry what was asked. */
  ghost predicate Carries(w: World, d: Desk, asked: Asking) {
    && (forall i :: 0 <= i < |d.waiting| ==> asked(d.waiting[i].rank) == Some(d.waiting[i].request))
    && (forall i :: 0 <= i < |d.openings| ==>
          && d.openings[i].sid in w.reqs && asked(d.openings[i].rank).Some?
          && OpenedAs(w.reqs[d.openings[i].sid], asked(d.openings[i].rank).value))
  }

  lemma AskOpensAs(e: Engine, r: Request)
    requires ValidEngine(e)
    ensures OpenedAs(Opened(EngineLaws.HeadFrames(e, r), r.body), r)
  {
    SplitCarries(e.send.conn.nextStreamId, r.block, r.body == [], r.priority, e.send.conn.remote.maxFrameSize);
  }

  lemma OpenCarries(w: World, d: Desk, sid: u32, asked: Asking)
    requires ValidEngine(w.engine) && d.waiting != [] && OpenedOk(d)
    requires sid == w.engine.send.conn.nextStreamId == 2 * |d.openings| + 1 && Carries(w, d, asked)
    ensures Carries(EngineLaws.AfterAsk(w, d.waiting[0].request), OpenHead(d, sid), asked)
  {
    AskOpensAs(w.engine, d.waiting[0].request);
  }

  /** Leaving the queue changes nothing for the others. */
  lemma FewerCarry(w: World, d: Desk, d': Desk, asked: Asking)
    requires Carries(w, d, asked) && d'.openings == d.openings
    requires forall i :: 0 <= i < |d'.waiting| ==> d'.waiting[i] in d.waiting
    ensures Carries(w, d', asked)
  {
  }

  lemma NextIs(w: World, d: Desk)
    requires Sound(w, d) && w.opens < MAX_OPENS
    ensures w.engine.send.conn.nextStreamId == 2 * |d.openings| + 1 && OpenedOk(d)
  {
    RequestGetsNthId(w);
  }

  lemma {:induction false} DispatchCarries(w: World, d: Desk, o: Outside, asked: Asking)
    requires Sound(w, d) && Dispatch(w, d, o).0.opens <= MAX_OPENS && Carries(w, d, asked)
    ensures Carries(Dispatch(w, d, o).0, Dispatch(w, d, o).1, asked)
    decreases |d.waiting|
  {
    if d.waiting != [] && CanOpenStream(w.engine.send.conn) {
      if o.gone(d.waiting[0].id) {
        DiscardSound(w, d);
        FewerCarry(w, d, Discard(d, 0), asked);
        DispatchCarries(w, Discard(d, 0), o, asked);
      } else {
        var sid := w.engine.send.conn.nextStreamId;
        NextIs(w, d);
        OpenCarries(w, d, sid, asked);
        var w1, d1 := EngineLaws.AfterAsk(w, d.waiting[0].request), OpenHead(d, sid);
        if o.writes(sid) {
          OpenSound(w, d, sid);
          DispatchCarries(w1, d1, o, asked);
        } else {
          FailPending(d1, sid, IoFault);
          FewerCarry(w1, d1, FailStream(d1, sid, IoFault), asked);
        }
      }
    }
  }

  lemma {:induction false} NotifyLeaves(d: Desk, fault: Fault)
    ensures NotifyWaiting(d, fault).waiting == [] && NotifyWaiting(d, fault).openings == d.openings
    decreases |d.waiting|
  {
    if d.waiting != [] {
      NotifyLeaves(Leave(d, 0, Regret(d.waiting[0].rank, fault)), fault);
    }
  }

  lemma BothLeave(d: Desk, o: Outside, fault: Fault)
    ensures NotifyBoth(d, o, fault).waiting == [] && NotifyBoth(d, o, fault).openings == d.openings
  {
    NotifyAllKeeps(d, o.hash(d.pending), fault);
    NotifyLeaves(NotifyAll(d, o.hash(d.pending), fault), fault);
  }

  lemma DispatchAllCarries(w: World, d: Desk, o: Outside, asked: Asking)
    requires Sound(w, d) && DispatchAll(w, d, o).0.opens <= MAX_OPENS && Carries(w, d, asked)
    ensures Carries(DispatchAll(w, d, o).0, DispatchAll(w, d, o).1, asked)
  {
    if w.engine.send.conn.error.Some? {
      NotifyLeaves(d, GoAwayFault);
      FewerCarry(w, d, NotifyWaiting(d, GoAwayFault), asked);
    } else {
      DispatchCarries(w, d, o, asked);
    }
  }

  lemma ArmCarries(s: System, o: Outside, asked: Asking)
    requires Sound(s.world, s.desk) && AfterArm(s, o).world.opens <= MAX_OPENS && Carries(s.world, s.desk, asked)
    ensures Carries(AfterArm(s, o).world, AfterArm(s, o).desk, asked)
  {
    var (w, d, ok) := DispatchAll(s.world, s.desk, o);
    DispatchAllCarries(s.world, s.desk, o, asked);
    if !ok {
      BothLeave(d, o, IoFault);
      FewerCarry(w, d, NotifyBoth(d, o, IoFault), asked);
    }
  }

  // ---- Steps --------------------------------------------------------------------------------------

  lemma {:induction false} HandlesReqs(w: World, ws: seq<World>, ls: seq<Label>, i: nat)
    requires Handles(w, ws, ls) && i <= |ls|
    ensures ws[i].reqs == w.reqs
  {
    if i > 0 {
      HandlesReqs(w, ws, ls, i - 1);
    }
  }

  /** The events of a read leave queue and streams alone. */
  lemma EventsCarry(s: System, ws: seq<World>, ls: seq<Label>, bad: Option<CodecError>, o: Outside, d: Desk, asked: Asking)
    requires SysInv(s) && Handles(s.world, ws, ls) && Carries(s.world, s.desk, asked)
    requires d == OnEvents(s.desk, Events(ls, bad), o.hash, o.status)
    ensures Sound(ws[|ls|], d) && Carries(ws[|ls|], d, asked)
  {
    HandlesReaches(s.world, ws, ls, |ls|);
    HandlesReqs(s.world, ws, ls, |ls|);
    OnEventsKeeps(s.desk, Events(ls, bad), o.hash, o.status);
    EventsSound(s.world, s.desk, Events(ls, bad), o, ws[|ls|]);
  }

  lemma LostReadCarries(s: System, ws: seq<World>, ls: seq<Label>, o: Outside, asked: Asking)
    requires Handles(s.world, ws, ls) && Carries(s.world, s.desk, asked)
    ensures var s' := Abort(s.(world := ws[|ls|]), o, IoFault); Carries(s'.world, s'.desk, asked)
  {
    HandlesReqs(s.world, ws, ls, |ls|);
    BothLeave(s.desk, o, IoFault);
  }

  lemma ReadCarries(s: System, ws: seq<World>, ls: seq<Label>, bad: Option<CodecError>, wrote: bool, o: Outside, s': System,
                    asked: Asking)
    requires SysInv(s) && SysNext(s, OnRead(ws, ls, bad, wrote), o, s') && Carries(s.world, s.desk, asked)
    ensures Carries(s'.world, s'.desk, asked)
  {
    if wrote {
      var d := OnEvents(s.desk, Events(ls, bad), o.hash, o.status);
      EventsCarry(s, ws, ls, bad, o, d, asked);
      ArmCarries(Settle(s.(world := ws[|ls|]), d), o, asked);
    } else {
      LostReadCarries(s, ws, ls, o, asked);
    }
  }

  lemma RemoveCarries(w: World, d: Desk, id: nat, asked: Asking)
    requires Carries(w, d, asked)
    ensures Carries(w, RemoveWaiting(d, id), asked)
  {
    FewerCarry(w, d, RemoveWaiting(d, id), asked);
  }

  lemma QuietCarries(s: System, a: Arm, o: Outside, s': System, asked: Asking)
    requires Sound(s.world, s.desk) && SysNext(s, a, o, s') && Carries(s.world, s.desk, asked)
    requires a.OnCancel? || a.OnCancelClosed? || a.OnShutdown?
    ensures Carries(s'.world, s'.desk, asked)
  {
    match a
    case OnCancel =>
      var s1 := Settle(s, RemoveWaiting(s.desk, s.cancels[0])).(cancels := s.cancels[1..]);
      RemoveSound(s.world, s.desk, s.cancels[0]);
      RemoveCarries(s.world, s.desk, s.cancels[0], asked);
      ArmCarries(s1, o, asked);
    case OnCancelClosed => ArmCarries(s.(cancelOpen := false), o, asked);
    case OnShutdown =>
      if !AllDone(s.desk) {
        ArmCarries(s.(shutdown := true), o, asked);
      }
  }

  lemma EndingCarries(s: System, a: Arm, o: Outside, s': System, asked: Asking)
    requires SysNext(s, a, o, s') && Carries(s.world, s.desk, asked) && (a.OnClosed? || a.OnTimeout?)
    ensures Carries(s'.world, s'.desk, asked)
  {
    BothLeave(s.desk, o, if a.OnClosed? then IoFault else ShutdownFault);
  }

  /** Every step but a command's. */
  lemma OtherCarries(s: System, a: Arm, o: Outside, s': System, asked: Asking)
    requires SysInv(s) && SysNext(s, a, o, s') && Carries(s.world, s.desk, asked) && !a.OnCommand?
    ensures Carries(s'.world, s'.desk, asked)
  {
    if a.OnRead? {
      ReadCarries(s, a.ws, a.ls, a.bad, a.wrote, o, s', asked);
    } else if a.OnClosed? || a.OnTimeout? {
      EndingCarries(s, a, o, s', asked);
    } else if a.OnCancel? || a.OnCancelClosed? || a.OnShutdown? {
      QuietCarries(s, a, o, s', asked);
    }
  }

  lemma ArriveCarries(w: World, d: Desk, id: nat, r: Request, asked: Asking, asked': Asking)
    requires Carries(w, d, asked) && asked'(d.arrivals) == Some(r)
    requires forall k: nat :: k < d.arrivals ==> asked'(k) == asked(k)
    requires QueueOk(d) && OpenedOk(d)
    ensures Carries(w, Arrive(d, id, r), asked')
  {
  }

  lemma DeskOk(s: System)
    requires SysInv(s)
    ensures QueueOk(s.desk) && OpenedOk(s.desk) && Sound(s.world, s.desk) && Permits(s)
  {
  }

  lemma CommandCarries(s: System, o: Outside, asked: Asking, asked': Asking)
    requires Sound(s.world, s.desk) && QueueOk(s.desk) && OpenedOk(s.desk) && s.channel != []
    requires AfterArm(TakeCommand(s, o), o).world.opens <= MAX_OPENS
    requires Carries(s.world, s.desk, asked) && forall k: nat :: k < s.desk.arrivals ==> asked'(k) == asked(k)
    requires !o.gone(s.channel[0].id) ==> asked'(s.desk.arrivals) == Some(s.channel[0].request)
    ensures var s' := AfterArm(TakeCommand(s, o), o); Carries(s'.world, s'.desk, asked')
  {
    TakeSound(s, o);
    TakeCarries(s, o, asked, asked');
    ArmCarries(TakeCommand(s, o), o, asked');
  }

  lemma TakeCarries(s: System, o: Outside, asked: Asking, asked': Asking)
    requires QueueOk(s.desk) && OpenedOk(s.desk) && s.channel != []
    requires Carries(s.world, s.desk, asked) && forall k: nat :: k < s.desk.arrivals ==> asked'(k) == asked(k)
    requires !o.gone(s.channel[0].id) ==> asked'(s.desk.arrivals) == Some(s.channel[0].request)
    ensures Carries(s.world, TakeCommand(s, o).desk, asked')
  {
    if !o.gone(s.channel[0].id) {
      ArriveCarries(s.world, s.desk, s.channel[0].id, s.channel[0].request, asked, asked');
    }
  }

  // ---- The channel --------------------------------------------------------------------------------

  predicate ChannelOk(channel: seq<Command>, t: Trace) {
    forall i :: 0 <= i < |channel| ==> Enqueued(t, channel[i].id) == Some(channel[i].request)
  }

  lemma {:induction false} CommandIdAt(cs: seq<Command>, i: nat)
    requires i < |cs|
    ensures CommandIds(cs)[i] == cs[i].id
  {
    if i > 0 {
      CommandIdAt(cs[1..], i - 1);
    }
  }

  /** An id still being sent is nowhere in the channel. */
  lemma SenderNotQueued(s: System, id: nat, i: nat)
    requires Permits(s) && id in s.senders && i < |s.channel|
    ensures s.channel[i].id != id
  {
    var all := multiset(s.senders) + multiset(CommandIds(s.channel)) + multiset(s.returned) + Queued(s.desk);
    IssuedOnce(s.nextId, id);
    assert all[id] == Issued(s.nextId)[id];
    if s.channel[i].id == id {
      CommandIdAt(s.channel, i);
      assert id in multiset(CommandIds(s.channel));
    }
  }

  /** The channel stays, or is gone with the loop. */
  predicate StillThere(s: System, s': System, channel: seq<Command>) {
    (s'.running ==> s.running) && (s'.channel == channel || (s'.channel == [] && !s'.running))
  }

  lemma ArmChannel(s: System, o: Outside)
    requires ValidEngine(s.world.engine)
    ensures StillThere(s, AfterArm(s, o), s.channel)
  {
  }

  lemma LoopChannel(s: System, a: Arm, o: Outside, s': System)
    requires Step(s, a, o, s') && (a.OnCancel? || a.OnCancelClosed? || a.OnShutdown? || a.OnRead?)
    ensures StillThere(s, s', s.channel)
  {
    match a
    case OnCancel => ArmChannel(Settle(s, RemoveWaiting(s.desk, s.cancels[0])).(cancels := s.cancels[1..]), o);
    case OnCancelClosed => ArmChannel(s.(cancelOpen := false), o);
    case OnShutdown => ArmChannel(s.(shutdown := true), o);
    case OnRead(ws, ls, bad, wrote) =>
      ArmChannel(Settle(s.(world := ws[|ls|]), OnEvents(s.desk, Events(ls, bad), o.hash, o.status)), o);
  }

  /** What each step does to the channel. */
  lemma ChannelStep(s: System, a: Arm, o: Outside, s': System)
    requires Step(s, a, o, s')
    ensures if a.Enqueue? then s'.channel == s.channel + [Command(a.id, a.request)] && s'.running == s.running
            else StillThere(s, s', if a.OnCommand? && s.channel != [] then s.channel[1..] else s.channel)
  {
    if a.OnCommand? {
      ArmChannel(TakeCommand(s, o), o);
    } else if a.OnCancel? || a.OnCancelClosed? || a.OnShutdown? || a.OnRead? {
      LoopChannel(s, a, o, s');
    }
  }

  lemma EnqueueKeeps(before: Trace, id: nat, r: Request, t: Trace)
    requires t.Then? && t.before == before && t.arm == Enqueue(id, r)
    requires Permits(before.s) && id in before.s.senders && ChannelOk(before.s.channel, before)
    ensures ChannelOk(before.s.channel + [Command(id, r)], t)
  {
    var cs := before.s.channel;
    forall i | 0 <= i < |cs|
      ensures cs[i].id != id
    {
      SenderNotQueued(before.s, id, i);
    }
  }

  lemma ChannelKept(t: Trace)
    requires SysRun(t) && t.Then? && SysInv(t.before.s) && ChannelOk(t.before.s.channel, t.before)
    ensures ChannelOk(t.s.channel, t)
  {
    ChannelStep(t.before.s, t.arm, t.outside, t.s);
    if t.arm.Enqueue? {
      DeskOk(t.before.s);
      EnqueueKeeps(t.before, t.arm.id, t.arm.request, t);
    }
  }

  // ---- Whole runs ---------------------------------------------------------------------------------

  function AskedIn(t: Trace): Asking {
    (rank: nat) => Requested(t, rank)
  }

  lemma FirstCarries(w: World, limit: Option<nat>, r: Request, o: Outside, asked: Asking)
    requires ValidEngine(w.engine) && asked(0) == Some(r)
    ensures var s := WithFirst(Base(w, limit), r, o); Carries(s.world, s.desk, asked) && s.channel == []
  {
    AskOpensAs(w.engine, r);
  }

  lemma BegunCarries(s: System, first: Option<Request>, asked: Asking)
    requires DriverTheorems.Fresh(s, first) && asked(0) == first
    ensures Carries(s.world, s.desk, asked) && s.channel == []
  {
    var limit, o :| Begins(s, first, limit, o);
    var w, profile, windowUpdate, blockLimit, policy :|
      BeginsWith(s, first, limit, o, w, profile, windowUpdate, blockLimit, policy);
    if first.Some? {
      FirstCarries(w, limit, first.value, o, asked);
    }
  }

  /** A command gives its rank its request, and changes nobody else's. */
  lemma CommandAsks(t: Trace)
    requires t.Then? && t.arm.OnCommand? && t.before.s.channel != [] && ChannelOk(t.before.s.channel, t.before)
    ensures forall k: nat :: k < t.before.s.desk.arrivals ==> Requested(t, k) == Requested(t.before, k)
    ensures !t.outside.gone(t.before.s.channel[0].id) ==>
              Requested(t, t.before.s.desk.arrivals) == Some(t.before.s.channel[0].request)
  {
  }

  lemma CommandStep(s: System, o: Outside, s': System, asked: Asking, asked': Asking)
    requires SysInv(s) && SysNext(s, OnCommand, o, s') && Carries(s.world, s.desk, asked)
    requires forall k: nat :: k < s.desk.arrivals ==> asked'(k) == asked(k)
    requires !o.gone(s.channel[0].id) ==> asked'(s.desk.arrivals) == Some(s.channel[0].request)
    ensures Carries(s'.world, s'.desk, asked')
  {
    DeskOk(s);
    CommandCarries(s, o, asked, asked');
  }

  lemma CommandStepCarries(t: Trace)
    requires t.Then? && SysNext(t.before.s, t.arm, t.outside, t.s) && t.arm.OnCommand? && SysInv(t.before.s)
    requires Carries(t.before.s.world, t.before.s.desk, AskedIn(t.before)) && ChannelOk(t.before.s.channel, t.before)
    ensures Carries(t.s.world, t.s.desk, AskedIn(t))
  {
    CommandAsks(t);
    CommandStep(t.before.s, t.outside, t.s, AskedIn(t.before), AskedIn(t));
  }

  lemma SameAsking(w: World, d: Desk, asked: Asking, asked': Asking)
    requires Carries(w, d, asked) && forall k: nat :: asked'(k) == asked(k)
    ensures Carries(w, d, asked')
  {
  }

  lemma {:induction false} RunCarries(t: Trace)
    requires SysRun(t)
    ensures Carries(t.s.world, t.s.desk, AskedIn(t)) && ChannelOk(t.s.channel, t)
  {
    if t.Begun? {
      BegunCarries(t.s, t.first, AskedIn(t));
    } else {
      SysRunInv(t.before);
      RunCarries(t.before);
      ChannelKept(t);
      if t.arm.OnCommand? {
        CommandStepCarries(t);
      } else {
        OtherCarries(t.before.s, t.arm, t.outside, t.s, AskedIn(t.before));
        SameAsking(t.s.world, t.s.desk, AskedIn(t.before), AskedIn(t));
      }
    }
  }

  lemma WireCarries(w: World, sid: u32, r: Request)
    requires Reachable(w) && sid in w.reqs && OpenedAs(w.reqs[sid], r)
    ensures SentOn(w.out, sid) + PendingFor(w.engine.send.pending, sid) == r.body
    ensures var fs := OnStream(w.out, sid);
            BlockOf(fs) == r.block && fs != [] && fs[0].Headers? && fs[0].priority == r.priority
  {
    BodyConserved(w, sid);
    ReachableInv(w);
    var o, fs := w.reqs[sid], OnStream(w.out, sid);
    assert w.engine.send.pending + [] == w.engine.send.pending;
    assert BodyOk(w.engine.send.pending, w.out, o, sid);
    HeadCarries(fs, o, sid, PendingFor(w.engine.send.pending, sid));
  }

  lemma HeadCarries(fs: seq<H2Frame>, o: Opened, sid: u32, left: bytes)
    requires RequestRun(fs, o, sid, left) && o.head != []
    ensures BlockOf(fs) == BlockOf(o.head) && fs != [] && fs[0] == o.head[0]
  {
    var h := |o.head|;
    assert fs == o.head + fs[h..];
    BlockAppend(o.head, fs[h..]);
    BlockNone(fs[h..]);
  }

  /** Over every run: on the stream opened for a request goes out what its caller put into the channel, or
      what the client was started with: its header block with its priority, and its body as far as it is
      no longer buffered. */
  lemma RequestGoesOut(t: Trace, rank: nat, sid: u32)
    requires SysRun(t) && Opening(rank, sid) in t.s.desk.openings
    ensures Requested(t, rank).Some?
    ensures var r, w := Requested(t, rank).value, t.s.world;
            && SentOn(w.out, sid) + PendingFor(w.engine.send.pending, sid) == r.body
            && var fs := OnStream(w.out, sid);
               BlockOf(fs) == r.block && fs != [] && fs[0].Headers? && fs[0].priority == r.priority
  {
    RunCarries(t);
    SysRunInv(t);
    DeskOk(t.s);
    var i :| 0 <= i < |t.s.desk.openings| && t.s.desk.openings[i] == Opening(rank, sid);
    WireCarries(t.s.world, sid, Requested(t, rank).value);
  }

  // ---- First in, first out ------------------------------------------------------------------------

  /** The ids put into the channel, and those the loop has taken out, in order. */
  function Entered(t: Trace): seq<nat> {
    match t
    case Begun(_, _) => []
    case Then(before, a, _, _) => Entered(before) + if a.Enqueue? then [a.id] else []
  }

  function Left(t: Trace): seq<nat> {
    match t
    case Begun(_, _) => []
    case Then(before, a, _, _) =>
      Left(before) + if a.OnCommand? && before.s.channel != [] then [before.s.channel[0].id] else []
  }

  lemma OrderStep(left: seq<nat>, cs: seq<Command>, entered: seq<nat>, s: System, a: Arm, o: Outside, s': System)
    requires Step(s, a, o, s') && cs == s.channel && left + CommandIds(cs) <= entered
    requires s.running ==> left + CommandIds(cs) == entered
    ensures var left', entered' := left + (if a.OnCommand? && cs != [] then [cs[0].id] else []),
                                   entered + (if a.Enqueue? then [a.id] else []);
            && left' + CommandIds(s'.channel) <= entered'
            && (s'.running ==> left' + CommandIds(s'.channel) == entered')
  {
    ChannelStep(s, a, o, s');
    if a.Enqueue? {
      OrderEnqueue(left, cs, entered, Command(a.id, a.request));
    } else if a.OnCommand? && cs != [] {
      Assoc(left, [cs[0].id], CommandIds(cs[1..]));
    }
  }

  lemma OrderEnqueue(left: seq<nat>, cs: seq<Command>, entered: seq<nat>, c: Command)
    requires left + CommandIds(cs) == entered
    ensures left + CommandIds(cs + [c]) == entered + [c.id]
  {
    CommandIdsPush(cs, c);
    Assoc(left, CommandIds(cs), [c.id]);
  }

  /** Commands are taken in the order they were enqueued, none is skipped, and while the loop runs those not
      taken are in the channel. */
  lemma {:induction false} FirstInFirstOut(t: Trace)
    requires SysRun(t)
    ensures Left(t) + CommandIds(t.s.channel) <= Entered(t)
    ensures t.s.running ==> Left(t) + CommandIds(t.s.channel) == Entered(t)
  {
    if t.Begun? {
      BegunCarries(t.s, t.first, AskedIn(t));
    } else {
      FirstInFirstOut(t.before);
      OrderStep(Left(t.before), t.before.s.channel, Entered(t.before), t.before.s, t.arm, t.outside, t.s);
    }
  }
}
