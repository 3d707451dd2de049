/** Invariants of the driver's step machine. */
module DriverRuns {
  import opened Wire
  import opened Frames
  import opened Codec
  import opened Streams
  import opened Connection
  import opened Policy
  import opened Engine
  import opened EngineLaws
  import opened EngineTheorems
  import opened EngineObject
  import opened RequestDesk
  import opened Driver

  const MAX_OPENS: nat := 0x8000_0000

  lemma AskReaches(w: World, r: Request)
    requires Reachable(w) && w.opens < MAX_OPENS && ValidEngine(w.engine)
    ensures Reachable(AfterAsk(w, r)) && ValidEngine(AfterAsk(w, r).engine)
    ensures w.engine.send.conn.nextStreamId == 2 * w.opens + 1
    ensures AfterAsk(w, r).engine.send.conn.error == w.engine.send.conn.error
  {
    AskFixed(w.engine, r);
    RequestGetsNthId(w);
    ReachableStep(w, Ask(r), AfterAsk(w, r));
  }

  /** The engine's run and the desk agree on which ids have been handed out. */
  ghost predicate Sound(w: World, d: Desk) {
    Reachable(w) && ValidEngine(w.engine) && w.opens == |d.openings| <= MAX_OPENS && DeskInv(d)
  }

  lemma OpenSound(w: World, d: Desk, sid: u32)
    requires Sound(w, d) && w.opens < MAX_OPENS && d.waiting != [] && sid == w.engine.send.conn.nextStreamId
    ensures sid !in d.pending && Sound(AfterAsk(w, d.waiting[0].request), OpenHead(d, sid))
  {
    AskReaches(w, d.waiting[0].request);
    OpenHeadKeeps(d, sid);
  }

  lemma DiscardSound(w: World, d: Desk)
    requires Sound(w, d) && d.waiting != []
    ensures Sound(w, Discard(d, 0))
  {
    DiscardKeeps(d, 0);
  }

  lemma FailSound(w: World, d: Desk, sid: u32, fault: Fault)
    requires Sound(w, d)
    ensures Sound(w, FailStream(d, sid, fault))
  {
    FailStreamKeeps(d, sid, fault);
  }

  lemma {:induction false} DispatchSound(w: World, d: Desk, o: Outside)
    requires Sound(w, d) && Dispatch(w, d, o).0.opens <= MAX_OPENS
    ensures Sound(Dispatch(w, d, o).0, Dispatch(w, d, o).1)
    decreases |d.waiting|
  {
    if d.waiting != [] && CanOpenStream(w.engine.send.conn) {
      if o.gone(d.waiting[0].id) {
        DiscardSound(w, d);
        DispatchSound(w, Discard(d, 0), o);
      } else {
        var sid := w.engine.send.conn.nextStreamId;
        OpenSound(w, d, sid);
        if o.writes(sid) {
          DispatchSound(AfterAsk(w, d.waiting[0].request), OpenHead(d, sid), o);
        } else {
          FailSound(AfterAsk(w, d.waiting[0].request), OpenHead(d, sid), sid, IoFault);
        }
      }
    }
  }

  // ---- What dispatch does -------------------------------------------------------------------------

  /** `d'` differs by requests that left the queue, some of them to new streams. */
  predicate Dispatched(d: Desk, d': Desk, opens: nat, opens': nat) {
    && SameQueued(d, d') && d.openings <= d'.openings && d'.arrivals == d.arrivals
    && opens' - opens == |d'.openings| - |d.openings|
  }

  lemma OpenQueued(d: Desk, sid: u32)
    requires d.waiting != []
    ensures SameQueued(d, OpenHead(d, sid))
    ensures SameQueued(d, FailStream(OpenHead(d, sid), sid, IoFault))
  {
    assert SameQueued(d, OpenHead(d, sid));
  }

  /** Permits are given back one for one, and each new stream is one request's. */
  lemma {:induction false} DispatchMoves(w: World, d: Desk, o: Outside)
    requires ValidEngine(w.engine)
    ensures Dispatched(d, Dispatch(w, d, o).1, w.opens, Dispatch(w, d, o).0.opens)
    decreases |d.waiting|
  {
    if d.waiting != [] && CanOpenStream(w.engine.send.conn) {
      if o.gone(d.waiting[0].id) {
        LeaveQueued(d, 0, [End(d.waiting[0].rank)]);
        DispatchMoves(w, Discard(d, 0), o);
      } else {
        var sid := w.engine.send.conn.nextStreamId;
        AskFixed(w.engine, d.waiting[0].request);
        OpenQueued(d, sid);
        if o.writes(sid) {
          DispatchMoves(AfterAsk(w, d.waiting[0].request), OpenHead(d, sid), o);
        }
      }
    }
  }

  /** Dispatch goes on until the queue is empty or the limit reached, unless a write fails. */
  lemma {:induction false} DispatchExhausts(w: World, d: Desk, o: Outside)
    requires ValidEngine(w.engine)
    ensures var (w', d', ok) := Dispatch(w, d, o);
            && w'.engine.send.conn.error == w.engine.send.conn.error
            && (ok ==> d'.waiting == [] || !CanOpenStream(w'.engine.send.conn))
    decreases |d.waiting|
  {
    if d.waiting != [] && CanOpenStream(w.engine.send.conn) {
      if o.gone(d.waiting[0].id) {
        DispatchExhausts(w, Discard(d, 0), o);
      } else {
        var sid := w.engine.send.conn.nextStreamId;
        AskFixed(w.engine, d.waiting[0].request);
        if o.writes(sid) {
          DispatchExhausts(AfterAsk(w, d.waiting[0].request), OpenHead(d, sid), o);
        }
      }
    }
  }

  // ---- Permits ------------------------------------------------------------------------------------

  /** The ids handed out so far, once each. */
  function Issued(n: nat): multiset<nat> {
    if n == 0 then multiset{} else Issued(n - 1) + multiset{n - 1}
  }

  lemma {:induction false} IssuedOnce(n: nat, id: nat)
    ensures Issued(n)[id] == if id < n then 1 else 0
  {
    if n > 0 {
      IssuedOnce(n - 1, id);
    }
  }

  function Limit(s: System): nat {
    if s.limit.Some? then s.limit.value else 0
  }

  /** Every id issued is in exactly one place, and each permit is free or with a request that is being
      sent, in the channel or in the queue. */
  predicate Permits(s: System) {
    && multiset(s.senders) + multiset(CommandIds(s.channel)) + multiset(s.returned) + Queued(s.desk)
       == Issued(s.nextId)
    && s.free + |s.senders| + |s.channel| + |s.desk.waiting| == Limit(s)
  }

  lemma SettlePermits(s: System, d: Desk)
    requires Permits(s) && SameQueued(s.desk, d)
    ensures Permits(Settle(s, d))
  {
  }

  lemma ExitPermits(s: System)
    requires Permits(s)
    ensures Permits(Exit(s))
  {
    assert multiset(s.returned + CommandIds(s.channel)) == multiset(s.returned) + multiset(CommandIds(s.channel));
  }

  lemma {:induction false} CommandIdsPush(cs: seq<Command>, c: Command)
    ensures CommandIds(cs + [c]) == CommandIds(cs) + [c.id]
    decreases |cs|
  {
    if cs == [] {
      assert cs + [c] == [c] && [c][1..] == [];
    } else {
      assert (cs + [c])[1..] == cs[1..] + [c];
      CommandIdsPush(cs[1..], c);
    }
  }

  /** Three ways an id moves between the four places. */
  lemma Moves(a: multiset<nat>, b: multiset<nat>, c: multiset<nat>, d: multiset<nat>, x: multiset<nat>)
    ensures (a + x) + b + c + d == (a + b + c + d) + x
    ensures a + (x + b) + c + d == a + b + (c + x) + d
    ensures a + (x + b) + c + d == a + b + c + (d + x)
  {
  }

  lemma FirstPart(a: multiset<nat>, b: multiset<nat>, c: multiset<nat>, d: multiset<nat>, x: nat)
    ensures a[x] <= (a + b + c + d)[x]
  {
  }

  lemma NextIdUnused(s: System)
    requires Permits(s)
    ensures s.nextId !in s.senders
  {
    IssuedOnce(s.nextId, s.nextId);
    FirstPart(multiset(s.senders), multiset(CommandIds(s.channel)), multiset(s.returned), Queued(s.desk), s.nextId);
  }

  lemma AcquireBag(senders: set<nat>, b: multiset<nat>, c: multiset<nat>, d: multiset<nat>, n: nat)
    requires multiset(senders) + b + c + d == Issued(n) && n !in senders
    ensures multiset(senders + {n}) + b + c + d == Issued(n + 1)
  {
    var x: multiset<nat> := multiset{n};
    assert multiset(senders + {n}) == multiset(senders) + x;
    Moves(multiset(senders), b, c, d, x);
  }

  lemma AcquirePermits(s: System)
    requires Permits(s)
    ensures Permits(s.(senders := s.senders + {s.nextId}, nextId := s.nextId + 1, free := s.free - 1))
  {
    NextIdUnused(s);
    AcquireBag(s.senders, multiset(CommandIds(s.channel)), multiset(s.returned), Queued(s.desk), s.nextId);
  }

  lemma EnqueuePermits(s: System, id: nat, request: Request)
    requires Permits(s) && id in s.senders
    ensures Permits(s.(senders := s.senders - {id}, channel := s.channel + [Command(id, request)]))
  {
    CommandIdsPush(s.channel, Command(id, request));
    assert multiset(CommandIds(s.channel) + [id]) == multiset(CommandIds(s.channel)) + multiset{id};
    assert multiset(s.senders) == multiset(s.senders - {id}) + multiset{id};
  }

  lemma AbandonPermits(s: System, id: nat)
    requires Permits(s) && id in s.senders
    ensures Permits(s.(senders := s.senders - {id}, returned := s.returned + [id], free := s.free + 1))
  {
    assert multiset(s.senders) == multiset(s.senders - {id}) + multiset{id};
  }

  lemma TakePermits(s: System, o: Outside)
    requires Permits(s) && s.channel != []
    ensures Permits(TakeCommand(s, o))
  {
    var c := s.channel[0];
    var x, later := multiset{c.id}, CommandIds(s.channel[1..]);
    assert multiset(CommandIds(s.channel)) == x + multiset(later) by {
      assert CommandIds(s.channel) == [c.id] + later;
    }
    Moves(multiset(s.senders), multiset(later), multiset(s.returned), Queued(s.desk), x);
    if o.gone(c.id) {
      assert multiset(s.returned + [c.id]) == multiset(s.returned) + x;
    } else {
      ArriveQueued(s.desk, c.id, c.request);
    }
  }

  lemma ArriveQueued(d: Desk, id: nat, request: Request)
    ensures Queued(Arrive(d, id, request)) == Queued(d) + multiset{id}
  {
    IdBagPush(d.waiting, Waiting(id, d.arrivals, request));
  }

  /** Conservation read off the count: an id is issued once, so its permit comes back at most once. */
  lemma ReturnedOnce(s: System, id: nat)
    requires Permits(s)
    ensures multiset(s.returned)[id] + multiset(s.desk.released)[id] <= 1
    ensures id in s.returned || id in s.desk.released ==>
              id !in s.senders && id !in CommandIds(s.channel) && id !in IdBag(s.desk.waiting)
    ensures id < s.nextId <==> id in s.senders || id in CommandIds(s.channel) || id in IdBag(s.desk.waiting)
                               || id in s.returned || id in s.desk.released
  {
    var all := multiset(s.senders) + multiset(CommandIds(s.channel)) + multiset(s.returned) + Queued(s.desk);
    IssuedOnce(s.nextId, id);
    assert all[id] == Issued(s.nextId)[id];
    assert id in multiset(s.returned) <==> id in s.returned;
    assert id in multiset(s.desk.released) <==> id in s.desk.released;
    assert id in multiset(CommandIds(s.channel)) <==> id in CommandIds(s.channel);
  }

  // ---- Every step keeps the invariant -------------------------------------------------------------

  /** Between steps: a failed connection has nothing queued, a finished driver nothing at all. */
  ghost predicate SysInv(s: System) {
    && Sound(s.world, s.desk) && Permits(s)
    && (!s.running ==> AllDone(s.desk) && s.channel == [])
    && (s.world.engine.send.conn.error.Some? ==> s.desk.waiting == [])
  }

  lemma NotifyBothKeeps(w: World, d: Desk, o: Outside, fault: Fault)
    requires Sound(w, d) && ValidOutside(o)
    ensures var d' := NotifyBoth(d, o, fault); Sound(w, d') && SameQueued(d, d') && AllDone(d')
  {
    var order := o.hash(d.pending);
    var d1 := NotifyAll(d, order, fault);
    NotifyAllKeeps(d, order, fault);
    NotifyWaitingKeeps(d1, fault);
    NotifyWaitingQueued(d1, fault);
  }

  lemma AbortKeeps(s: System, o: Outside, fault: Fault)
    requires Sound(s.world, s.desk) && Permits(s) && ValidOutside(o)
    ensures SysInv(Abort(s, o, fault))
  {
    var d := NotifyBoth(s.desk, o, fault);
    NotifyBothKeeps(s.world, s.desk, o, fault);
    SettlePermits(s, d);
    ExitPermits(Settle(s, d));
  }

  lemma DispatchAllKeeps(w: World, d: Desk, o: Outside)
    requires Sound(w, d) && DispatchAll(w, d, o).0.opens <= MAX_OPENS
    ensures var (w', d', ok) := DispatchAll(w, d, o);
            && Sound(w', d') && SameQueued(d, d')
            && (w'.engine.send.conn.error.Some? ==> d'.waiting == [])
  {
    if w.engine.send.conn.error.Some? {
      NotifyWaitingKeeps(d, GoAwayFault);
      NotifyWaitingQueued(d, GoAwayFault);
    } else {
      DispatchSound(w, d, o);
      DispatchMoves(w, d, o);
      DispatchExhausts(w, d, o);
    }
  }

  /** The loop goes on, or ends, with this world and desk. */
  lemma SettledInv(s: System, w: World, d: Desk)
    requires Permits(s) && s.running && Sound(w, d) && SameQueued(s.desk, d)
    requires w.engine.send.conn.error.Some? ==> d.waiting == []
    ensures SysInv(Settle(s, d).(world := w))
    ensures AllDone(d) ==> SysInv(Exit(Settle(s, d).(world := w)))
  {
    SettlePermits(s, d);
    ExitPermits(Settle(s, d).(world := w));
  }

  lemma AfterArmKeeps(s: System, o: Outside)
    requires Sound(s.world, s.desk) && Permits(s) && s.running && ValidOutside(o)
    requires AfterArm(s, o).world.opens <= MAX_OPENS
    ensures SysInv(AfterArm(s, o))
  {
    var (w, d, ok) := DispatchAll(s.world, s.desk, o);
    DispatchAllKeeps(s.world, s.desk, o);
    if ok {
      SettledInv(s, w, d);
    } else {
      NotifyBothKeeps(w, d, o, IoFault);
      SettledInv(s, w, NotifyBoth(d, o, IoFault));
    }
  }

  lemma {:induction false} HandlesReaches(w: World, ws: seq<World>, ls: seq<Label>, i: nat)
    requires Reachable(w) && Handles(w, ws, ls) && i <= |ls|
    ensures Reachable(ws[i]) && ws[i].opens == w.opens
    ensures w.engine.send.conn.error.Some? ==> ws[i].engine.send.conn.error.Some?
  {
    if i > 0 {
      HandlesReaches(w, ws, ls, i - 1);
      var v, l := ws[i - 1], ls[i - 1];
      ReachableStep(v, l, ws[i]);
      HandledFixed(v.engine, l.frame, l.decoded, ws[i].engine, l.output);
    }
  }

  lemma EventsSound(w: World, d: Desk, evs: seq<H2Event>, o: Outside, w': World)
    requires Sound(w, d) && Reachable(w') && ValidEngine(w'.engine) && w'.opens == w.opens
    ensures Sound(w', OnEvents(d, evs, o.hash, o.status)) && SameQueued(d, OnEvents(d, evs, o.hash, o.status))
  {
    OnEventsKeeps(d, evs, o.hash, o.status);
  }

  lemma ReadKeeps(s: System, o: Outside, ws: seq<World>, ls: seq<Label>, bad: Option<CodecError>, wrote: bool, s': System)
    requires SysInv(s) && ValidOutside(o) && Step(s, OnRead(ws, ls, bad, wrote), o, s') && s'.world.opens <= MAX_OPENS
    ensures SysInv(s')
  {
    HandlesReaches(s.world, ws, ls, |ls|);
    var t := s.(world := ws[|ls|]);
    if wrote {
      var d := OnEvents(s.desk, Events(ls, bad), o.hash, o.status);
      EventsSound(s.world, s.desk, Events(ls, bad), o, t.world);
      SettlePermits(t, d);
      AfterArmKeeps(Settle(t, d), o);
    } else {
      AbortKeeps(t, o, IoFault);
    }
  }

  lemma RemoveSound(w: World, d: Desk, id: nat)
    requires Sound(w, d)
    ensures Sound(w, RemoveWaiting(d, id)) && SameQueued(d, RemoveWaiting(d, id))
  {
    RemoveWaitingKeeps(d, id);
    var i := Position(d.waiting, id);
    if i < |d.waiting| {
      LeaveQueued(d, i, [End(d.waiting[i].rank)]);
    }
  }

  lemma CancelKeeps(s: System, o: Outside, s': System)
    requires SysInv(s) && ValidOutside(o) && Step(s, OnCancel, o, s') && s'.world.opens <= MAX_OPENS
    ensures SysInv(s')
  {
    var d := RemoveWaiting(s.desk, s.cancels[0]);
    RemoveSound(s.world, s.desk, s.cancels[0]);
    SettlePermits(s, d);
    AfterArmKeeps(Settle(s, d).(cancels := s.cancels[1..]), o);
  }

  lemma ArriveSound(w: World, d: Desk, id: nat, request: Request)
    requires Sound(w, d)
    ensures Sound(w, Arrive(d, id, request))
  {
    ArriveKeeps(d, id, request);
  }

  lemma TakeSound(s: System, o: Outside)
    requires Sound(s.world, s.desk) && s.channel != []
    ensures Sound(s.world, TakeCommand(s, o).desk)
    ensures var d := TakeCommand(s, o).desk;
            d.log == s.desk.log && d.pending == s.desk.pending && d.openings == s.desk.openings
  {
    if !o.gone(s.channel[0].id) {
      ArriveSound(s.world, s.desk, s.channel[0].id, s.channel[0].request);
      assert TakeCommand(s, o).desk == Arrive(s.desk, s.channel[0].id, s.channel[0].request);
    } else {
      assert TakeCommand(s, o).desk == s.desk;
    }
  }

  lemma CommandKeeps(s: System, o: Outside)
    requires Sound(s.world, s.desk) && Permits(s) && s.running && ValidOutside(o) && s.channel != []
    requires AfterArm(TakeCommand(s, o), o).world.opens <= MAX_OPENS
    ensures SysInv(AfterArm(TakeCommand(s, o), o))
  {
    TakePermits(s, o);
    TakeSound(s, o);
    AfterArmKeeps(TakeCommand(s, o), o);
  }

  lemma ShutdownKeeps(s: System, o: Outside, s': System)
    requires SysInv(s) && ValidOutside(o) && Step(s, OnShutdown, o, s') && s'.world.opens <= MAX_OPENS
    ensures SysInv(s')
  {
    var t := s.(shutdown := true);
    if AllDone(s.desk) {
      ExitPermits(t);
    } else {
      AfterArmKeeps(t, o);
    }
  }

  /** The steps of callers touch permits only. */
  lemma CallerKeeps(s: System, a: Arm, o: Outside, s': System)
    requires SysInv(s) && Step(s, a, o, s') && (a.Acquire? || a.Enqueue? || a.Abandon? || a.Cancel?)
    ensures SysInv(s')
  {
    match a
    case Acquire => AcquirePermits(s);
    case Enqueue(id, request) => EnqueuePermits(s, id, request);
    case Abandon(id) => AbandonPermits(s, id);
    case Cancel(id) =>
  }

  /** The arms that end the loop at once. */
  lemma EndingKeeps(s: System, a: Arm, o: Outside, s': System)
    requires SysInv(s) && ValidOutside(o) && Step(s, a, o, s') && (a.OnClosed? || a.OnTimeout?)
    ensures SysInv(s')
  {
    AbortKeeps(s, o, if a.OnClosed? then IoFault else ShutdownFault);
  }

  lemma CancelClosedKeeps(s: System, o: Outside, s': System)
    requires SysInv(s) && ValidOutside(o) && Step(s, OnCancelClosed, o, s') && s'.world.opens <= MAX_OPENS
    ensures SysInv(s')
  {
    AfterArmKeeps(s.(cancelOpen := false), o);
  }

  /** The arms that go on to dispatch without having read anything. */
  lemma TurnKeeps(s: System, a: Arm, o: Outside, s': System)
    requires SysInv(s) && ValidOutside(o) && Step(s, a, o, s') && s'.world.opens <= MAX_OPENS
    requires a.OnCancel? || a.OnCancelClosed? || a.OnCommand? || a.OnShutdown?
    ensures SysInv(s')
  {
    match a
    case OnCancel => CancelKeeps(s, o, s');
    case OnCancelClosed => CancelClosedKeeps(s, o, s');
    case OnCommand => CommandKeeps(s, o);
    case OnShutdown => ShutdownKeeps(s, o, s');
  }

  lemma StepKeeps(s: System, a: Arm, o: Outside, s': System)
    requires SysInv(s) && ValidOutside(o) && Step(s, a, o, s') && s'.world.opens <= MAX_OPENS
    ensures SysInv(s')
  {
    if a.OnRead? {
      ReadKeeps(s, o, a.ws, a.ls, a.bad, a.wrote, s');
    } else if a.OnClosed? || a.OnTimeout? {
      EndingKeeps(s, a, o, s');
    } else if a.Acquire? || a.Enqueue? || a.Abandon? || a.Cancel? {
      CallerKeeps(s, a, o, s');
    } else {
      TurnKeeps(s, a, o, s');
    }
  }
}
