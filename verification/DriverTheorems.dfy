/** The laws of the driver, for every run and every interleaving of callers and loop. */
module DriverTheorems {
  import opened Wire
  import opened Frames
  import opened Codec
  import opened Streams
  import opened Connection
  import opened Sender
  import opened Policy
  import opened Engine
  import opened Runs
  import opened SendRuns
  import opened EngineLaws
  import opened EngineTheorems
  import opened EngineObject
  import opened RequestDesk
  import opened Driver
  import opened DriverRuns

  ghost predicate SysNext(s: System, a: Arm, o: Outside, s': System) {
    Step(s, a, o, s') && ValidOutside(o) && s'.world.opens <= MAX_OPENS
  }

  /** A run so far: how it began, with a first request or without, and each step with what it led to. */
  datatype Trace = Begun(first: Option<Request>, s: System) | Then(before: Trace, arm: Arm, outside: Outside, s: System)

  ghost predicate Fresh(s: System, first: Option<Request>) {
    exists limit: Option<nat>, o: Outside :: Begins(s, first, limit, o)
  }

  /** The runs of the system; they end with the 2^31 streams the id counter has room for. */
  ghost predicate SysRun(t: Trace) {
    match t
    case Begun(first, s) => Fresh(s, first)
    case Then(before, a, o, s) => SysRun(before) && SysNext(before.s, a, o, s)
  }

  lemma FirstSound(w: World, r: Request, o: Outside)
    requires Sound(w, EMPTY_DESK) && w.opens == 0
    ensures var sid := w.engine.send.conn.nextStreamId;
            var d := OpenFirst(EMPTY_DESK, sid);
            && Sound(AfterAsk(w, r), d) && Sound(AfterAsk(w, r), RejectStream(d, sid, IoFault))
            && AfterAsk(w, r).engine.send.conn.error == w.engine.send.conn.error
  {
    AskReaches(w, r);
    OpenFirstKeeps(EMPTY_DESK, 1);
    RejectStreamKeeps(OpenFirst(EMPTY_DESK, 1), 1, IoFault);
  }

  lemma BasePermits(w: World, limit: Option<nat>)
    ensures Permits(Base(w, limit))
  {
  }

  lemma FirstPermits(w: World, limit: Option<nat>, r: Request, o: Outside)
    requires ValidEngine(w.engine)
    ensures Permits(WithFirst(Base(w, limit), r, o))
  {
    var sid := w.engine.send.conn.nextStreamId;
    var t := Base(w, limit).(world := AfterAsk(w, r), desk := OpenFirst(EMPTY_DESK, sid));
    BasePermits(w, limit);
    SettlePermits(t, t.desk);
    SettlePermits(t, RejectStream(t.desk, sid, IoFault));
    ExitPermits(Settle(t, RejectStream(t.desk, sid, IoFault)));
  }

  lemma StartSound(w: World, profile: seq<SettingsParameter>, windowUpdate: u32, blockLimit: nat, policy: FlowPolicy)
    requires Start(w, profile, windowUpdate, blockLimit, policy)
    ensures Sound(w, EMPTY_DESK) && w.opens == 0 && w.engine.send.conn.error.None?
  {
    assert Reaches([w], [], profile, windowUpdate, blockLimit, policy, w);
  }

  lemma FirstRejected(sid: u32)
    ensures AllDone(RejectStream(OpenFirst(EMPTY_DESK, sid), sid, IoFault))
  {
  }

  lemma FirstInv(w: World, limit: Option<nat>, r: Request, o: Outside)
    requires Sound(w, EMPTY_DESK) && w.opens == 0 && w.engine.send.conn.error.None?
    ensures SysInv(WithFirst(Base(w, limit), r, o))
  {
    var sid := w.engine.send.conn.nextStreamId;
    var s := WithFirst(Base(w, limit), r, o);
    FirstSound(w, r, o);
    FirstPermits(w, limit, r, o);
    FirstRejected(sid);
    if o.writes(sid) {
      assert s.world == AfterAsk(w, r) && s.desk == OpenFirst(EMPTY_DESK, sid) && s.running;
    } else {
      assert s.world == AfterAsk(w, r) && s.desk == RejectStream(OpenFirst(EMPTY_DESK, sid), sid, IoFault);
    }
  }

  lemma BeginsInv(s: System, first: Option<Request>, limit: Option<nat>, o: Outside)
    requires Begins(s, first, limit, o)
    ensures SysInv(s)
  {
    var w, profile, windowUpdate, blockLimit, policy :|
      BeginsWith(s, first, limit, o, w, profile, windowUpdate, blockLimit, policy);
    StartSound(w, profile, windowUpdate, blockLimit, policy);
    if first.Some? {
      FirstInv(w, limit, first.value, o);
    } else {
      BasePermits(w, limit);
    }
  }

  lemma NextKeeps(s: System, a: Arm, o: Outside, s': System)
    requires SysInv(s) && SysNext(s, a, o, s')
    ensures SysInv(s')
  {
    StepKeeps(s, a, o, s');
  }

  lemma {:induction false} SysRunInv(t: Trace)
    requires SysRun(t)
    ensures SysInv(t.s)
  {
    match t
    case Begun(first, s) =>
      var limit, o :| Begins(s, first, limit, o);
      BeginsInv(s, first, limit, o);
    case Then(before, a, o, s) =>
      SysRunInv(before);
      NextKeeps(before.s, a, o, s);
  }

  ghost predicate EndsIn(t: Trace, s: System) {
    SysRun(t) && s == t.s
  }

  ghost predicate SysReachable(s: System) {
    exists t: Trace :: EndsIn(t, s)
  }

  lemma SysReachableInv(s: System)
    requires SysReachable(s)
    ensures SysInv(s)
  {
    var t :| EndsIn(t, s);
    SysRunInv(t);
  }

  // ---- Exactly once -------------------------------------------------------------------------------

  /** Each accepted request is in exactly one of queue, map and finished, and on one stream at most. */
  lemma ExactlyOnePlace(s: System, k: nat)
    requires SysReachable(s) && k < s.desk.arrivals
    ensures var d := s.desk;
            && Placed(d, k)
            && !(InQueue(d, k) && InPending(d, k))
            && !(InQueue(d, k) && Ended(d.log, k))
            && !(InPending(d, k) && Ended(d.log, k))
            && forall a, b :: a in d.pending && b in d.pending && d.pending[a].rank == k == d.pending[b].rank ==> a == b
  {
    SysReachableInv(s);
  }

  /** The header channel is used at most once and never for an interim response; after the end
      nothing more is sent, not even a second end. */
  lemma RepliesOnce(s: System)
    requires SysReachable(s)
    ensures var log := s.desk.log;
            && (forall i, j :: 0 <= i < j < |log| && log[i].End? ==> log[j].who != log[i].who)
            && (forall i, j :: 0 <= i < j < |log| && log[i].Head? && log[j].Head? ==> log[j].who != log[i].who)
            && (forall k :: 0 <= k < |log| && log[k].Head? && log[k].head.Response? ==>
                  !(100 <= log[k].head.status <= 199))
  {
    SysReachableInv(s);
  }

  /** Whenever the loop has ended, by whichever way out, nothing is queued or pending and every
      accepted request has been finished. */
  lemma ExitIsClean(s: System, k: nat)
    requires SysReachable(s) && !s.running
    ensures AllDone(s.desk) && s.channel == []
    ensures k < s.desk.arrivals ==> Ended(s.desk.log, k)
  {
    SysReachableInv(s);
    if k < s.desk.arrivals {
      assert Placed(s.desk, k);
    }
  }

  // ---- Order --------------------------------------------------------------------------------------

  /** Streams are opened in the order requests arrived, with ids 1, 3, 5, ...; everything still
      queued arrived after everything opened; and a reply on a stream goes to the request that was
      opened on it. */
  lemma OpenedInOrder(s: System)
    requires SysReachable(s)
    ensures var d := s.desk;
            && (forall i :: 0 <= i < |d.openings| ==> d.openings[i].sid == 2 * i + 1)
            && (forall i, j :: 0 <= i < j < |d.openings| ==> d.openings[i].rank < d.openings[j].rank)
            && (forall i, j :: 0 <= i < |d.openings| && 0 <= j < |d.waiting| ==> d.openings[i].rank < d.waiting[j].rank)
            && (forall sid :: sid in d.pending ==> Opening(d.pending[sid].rank, sid) in d.openings)
            && s.world.opens == |d.openings|
  {
    SysReachableInv(s);
  }

  // ---- Permits ------------------------------------------------------------------------------------

  /** With a limit of n, free permits and requests holding one add up to n; and no permit comes back
      twice, or while its request still holds it. */
  lemma PermitsConserved(s: System, id: nat)
    requires SysReachable(s)
    ensures s.limit.Some? ==> s.free + |s.senders| + |s.channel| + |s.desk.waiting| == s.limit.value
    ensures multiset(s.returned)[id] + multiset(s.desk.released)[id] <= 1
    ensures id in s.returned || id in s.desk.released ==>
              id !in s.senders && id !in CommandIds(s.channel) && id !in IdBag(s.desk.waiting)
    ensures id < s.nextId <==> id in s.senders || id in CommandIds(s.channel) || id in IdBag(s.desk.waiting)
                               || id in s.returned || id in s.desk.released
  {
    SysReachableInv(s);
    ReturnedOnce(s, id);
  }

  /** Once the driver is gone and no caller is still sending, every permit is free again. */
  lemma PermitsComeBack(s: System)
    requires SysReachable(s) && !s.running && s.senders == {} && s.limit.Some?
    ensures s.free == s.limit.value
  {
    SysReachableInv(s);
  }

  // ---- GOAWAY -------------------------------------------------------------------------------------

  predicate Failed(s: System) {
    s.world.engine.send.conn.error.Some?
  }

  lemma ErrorRead(s: System, ws: seq<World>, ls: seq<Label>, bad: Option<CodecError>, wrote: bool, o: Outside, s': System)
    requires Reachable(s.world) && Failed(s) && Step(s, OnRead(ws, ls, bad, wrote), o, s')
    ensures Failed(s') && s'.desk.openings == s.desk.openings
  {
    HandlesReaches(s.world, ws, ls, |ls|);
    var t := s.(world := ws[|ls|]);
    if wrote {
      EventsKeepOpenings(s.desk, Events(ls, bad), o);
      ArmAfterError(Settle(t, OnEvents(s.desk, Events(ls, bad), o.hash, o.status)), o);
    } else {
      BothKeepOpenings(s.desk, o, IoFault);
    }
  }

  lemma ErrorTurn(s: System, a: Arm, o: Outside, s': System)
    requires Step(s, a, o, s') && Failed(s) && (a.OnCancel? || a.OnCancelClosed? || a.OnCommand? || a.OnShutdown?)
    ensures Failed(s') && s'.desk.openings == s.desk.openings
  {
    match a
    case OnCancel =>
      ArmAfterError(Settle(s, RemoveWaiting(s.desk, s.cancels[0])).(cancels := s.cancels[1..]), o);
    case OnCancelClosed => ArmAfterError(s.(cancelOpen := false), o);
    case OnCommand => ArmAfterError(TakeCommand(s, o), o);
    case OnShutdown =>
      if !AllDone(s.desk) {
        ArmAfterError(s.(shutdown := true), o);
      }
  }

  lemma ErrorStep(s: System, a: Arm, o: Outside, s': System)
    requires Reachable(s.world) && SysNext(s, a, o, s') && Failed(s)
    ensures Failed(s') && s'.desk.openings == s.desk.openings
  {
    if a.OnRead? {
      ErrorRead(s, a.ws, a.ls, a.bad, a.wrote, o, s');
    } else if a.OnClosed? || a.OnTimeout? {
      BothKeepOpenings(s.desk, o, if a.OnClosed? then IoFault else ShutdownFault);
    } else if a.OnCancel? || a.OnCancelClosed? || a.OnCommand? || a.OnShutdown? {
      ErrorTurn(s, a, o, s');
    }
  }

  lemma {:induction false} EventsKeepOpenings(d: Desk, evs: seq<H2Event>, o: Outside)
    ensures OnEvents(d, evs, o.hash, o.status).openings == d.openings
    decreases |evs|
  {
    if evs != [] {
      OnEventQueue(d, evs[0], o.hash, o.status);
      EventsKeepOpenings(OnEvent(d, evs[0], o.hash, o.status), evs[1..], o);
    }
  }

  lemma BothKeepOpenings(d: Desk, o: Outside, fault: Fault)
    ensures NotifyBoth(d, o, fault).openings == d.openings
  {
    NotifyAllKeeps(d, o.hash(d.pending), fault);
    WaitingKeepOpenings(NotifyAll(d, o.hash(d.pending), fault), fault);
  }

  lemma {:induction false} WaitingKeepOpenings(d: Desk, fault: Fault)
    ensures NotifyWaiting(d, fault).openings == d.openings
    decreases |d.waiting|
  {
    if d.waiting != [] {
      WaitingKeepOpenings(Leave(d, 0, Regret(d.waiting[0].rank, fault)), fault);
    }
  }

  lemma ArmAfterError(s: System, o: Outside)
    requires ValidEngine(s.world.engine) && Failed(s)
    ensures Failed(AfterArm(s, o)) && AfterArm(s, o).desk.openings == s.desk.openings
  {
    WaitingKeepOpenings(s.desk, GoAwayFault);
  }

  ghost predicate Earlier(u: Trace, t: Trace) {
    u == t || (t.Then? && Earlier(u, t.before))
  }

  lemma FailedQueue(t: Trace)
    requires SysRun(t)
    ensures Reachable(t.s.world) && (Failed(t.s) ==> t.s.desk.waiting == [])
  {
    SysRunInv(t);
  }

  /** After a GOAWAY with a non-zero code no stream is opened any more and nothing stays queued. */
  lemma {:induction false} NothingOpensAfterError(u: Trace, t: Trace)
    requires SysRun(t) && Earlier(u, t) && Failed(u.s)
    ensures Failed(t.s) && t.s.desk.openings == u.s.desk.openings && t.s.desk.waiting == []
    decreases t
  {
    FailedQueue(t);
    if u != t {
      NothingOpensAfterError(u, t.before);
      FailedQueue(t.before);
      ErrorStep(t.before.s, t.arm, t.outside, t.s);
    }
  }

  // ---- Dispatch -----------------------------------------------------------------------------------

  function Active(w: World): set<u32> {
    ActiveStreams(w.engine.send.conn.streams)
  }

  lemma FreshStream(w: World)
    requires Reachable(w) && w.opens < MAX_OPENS
    ensures w.engine.send.conn.nextStreamId !in w.engine.send.conn.streams
  {
    RequestGetsNthId(w);
    ReachableInv(w);
  }

  lemma ActiveGrows(t: Table, t': Table, sid: u32)
    requires sid !in t && t'.Keys == t.Keys + {sid} && t'[sid].state.IsActive()
    requires forall k :: k in t ==> t'[k] == t[k]
    ensures |ActiveStreams(t')| == |ActiveStreams(t)| + 1
  {
    assert ActiveStreams(t') == ActiveStreams(t) + {sid};
  }

  /** A request adds one active stream: its own. */
  lemma AskActive(e: Engine, r: Request)
    requires ValidEngine(e) && e.send.conn.nextStreamId !in e.send.conn.streams
    ensures var c, c' := e.send.conn, SendRequest(e, r).0.send.conn;
            && c'.remote == c.remote
            && |ActiveStreams(c'.streams)| == |ActiveStreams(c.streams)| + 1
  {
    var c := e.send.conn;
    var sid := c.nextStreamId;
    if r.body != [] {
      BuildDataConn(e.send.(conn := OpenStream(c)), sid, r.body, true);
    }
    ActiveGrows(c.streams, SendRequest(e, r).0.send.conn.streams, sid);
  }

  /** Dispatch never takes the number of active streams past the peer's limit: if it opened any
      stream, the count afterwards is within MAX_CONCURRENT_STREAMS. */
  lemma {:induction false} DispatchWithinLimit(w: World, d: Desk, o: Outside)
    requires Sound(w, d) && Dispatch(w, d, o).0.opens <= MAX_OPENS
    ensures var (w', d', ok) := Dispatch(w, d, o);
            var max := w.engine.send.conn.remote.maxConcurrentStreams;
            && |Active(w')| == |Active(w)| + (w'.opens - w.opens)
            && (w'.opens > w.opens && max.Some? ==> |Active(w')| <= max.value)
            && w'.engine.send.conn.remote == w.engine.send.conn.remote
    decreases |d.waiting|
  {
    if d.waiting != [] && CanOpenStream(w.engine.send.conn) {
      var sid := w.engine.send.conn.nextStreamId;
      if o.gone(d.waiting[0].id) {
        DiscardSound(w, d);
        DispatchWithinLimit(w, Discard(d, 0), o);
      } else {
        FreshStream(w);
        AskActive(w.engine, d.waiting[0].request);
        if o.writes(sid) {
          OpenSound(w, d, sid);
          DispatchWithinLimit(AfterAsk(w, d.waiting[0].request), OpenHead(d, sid), o);
        }
      }
    }
  }

  predicate SomeoneWaits(d: Desk, o: Outside) {
    exists i :: 0 <= i < |d.waiting| && !o.gone(d.waiting[i].id)
  }

  /** Dispatch opens a stream exactly when the connection has no error, the limit allows one and some
      queued request still has a caller. */
  lemma {:induction false} DispatchOpensIff(w: World, d: Desk, o: Outside)
    requires ValidEngine(w.engine)
    ensures DispatchAll(w, d, o).0.opens > w.opens
            <==> w.engine.send.conn.error.None? && CanOpenStream(w.engine.send.conn) && SomeoneWaits(d, o)
    decreases |d.waiting|
  {
    var c := w.engine.send.conn;
    if c.error.None? && d.waiting != [] && CanOpenStream(c) {
      if o.gone(d.waiting[0].id) {
        var d1 := Discard(d, 0);
        assert d1.waiting == d.waiting[1..];
        DispatchOpensIff(w, d1, o);
        if SomeoneWaits(d, o) {
          var i :| 0 <= i < |d.waiting| && !o.gone(d.waiting[i].id);
          assert !o.gone(d1.waiting[i - 1].id);
        }
      } else {
        AskFixed(w.engine, d.waiting[0].request);
      }
    }
  }

  /** A graceful GOAWAY does not stop dispatch: `is_goaway` looks at the error code only, so streams
      above the announced last id go on being opened. */
  lemma GracefulGoAwayStillOpens(w: World, d: Desk, o: Outside, last: u32, debugData: bytes)
    requires ValidEngine(w.engine)
    ensures var f := GoAway(last, 0, debugData);
            var (e, out) := HandleOther(w.engine, f, None);
            var w' := AfterReceive(w, f, out, e);
            && e.send.conn.goawayReceived && e.send.conn.goawayLastStreamId == Some(last)
            && (DispatchAll(w', d, o).0.opens > w'.opens <==> DispatchAll(w, d, o).0.opens > w.opens)
  {
    var f := GoAway(last, 0, debugData);
    var (e, out) := HandleOther(w.engine, f, None);
    DispatchOpensIff(w, d, o);
    DispatchOpensIff(AfterReceive(w, f, out, e), d, o);
  }

  // ---- The engine under the driver ----------------------------------------------------------------

  /** Whatever the callers and the peer do, each request's body leaves in order and whole: sent
      bytes, then the bytes still buffered. */
  lemma DriverConservesBodies(s: System, sid: u32)
    requires SysReachable(s) && sid in s.world.reqs
    ensures SentOn(s.world.out, sid) + PendingFor(s.world.engine.send.pending, sid) == s.world.reqs[sid].body
  {
    SysReachableInv(s);
    BodyConserved(s.world, sid);
  }
}
