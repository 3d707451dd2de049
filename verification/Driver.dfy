/** The driver's loop as a step machine (lkh2/src/driver.rs): callers acquire permits, queue requests
    and cancel them; each arm of the loop is one step, followed by dispatch. Sockets and timers are
    choices of the step; everything the driver does in between is fixed. */
module Driver {
  import opened Wire
  import opened Frames
  import opened Codec
  import opened Streams
  import opened Connection
  import opened Policy
  import opened Engine
  import opened EngineLaws
  import opened EngineTheorems
  import opened EngineObject
  import opened RequestDesk

  /** What the driver cannot know: the hash map's order, the status in a header list, which callers
      have gone when looked at, and on which streams a write succeeds. */
  datatype Outside = Outside(
    hash: HashOrder, status: HeaderList -> nat, gone: nat -> bool, writes: u32 -> bool)

  ghost predicate ValidOutside(o: Outside) {
    forall m: map<u32, Pending> :: (set sid | sid in o.hash(m)) == m.Keys
  }

  // ---- Dispatch -----------------------------------------------------------------------------------

  /** The loop of `dispatch_waiting_requests`; the flag is false when a write failed. */
  function Dispatch(w: World, d: Desk, o: Outside): (r: (World, Desk, bool))
    requires ValidEngine(w.engine)
    ensures ValidEngine(r.0.engine) && r.0.opens >= w.opens
    decreases |d.waiting|
  {
    if d.waiting == [] || !CanOpenStream(w.engine.send.conn) then (w, d, true)
    else if o.gone(d.waiting[0].id) then Dispatch(w, Discard(d, 0), o)
    else
      var sid := w.engine.send.conn.nextStreamId;
      var r := d.waiting[0].request;
      AskFixed(w.engine, r);
      if o.writes(sid) then Dispatch(AfterAsk(w, r), OpenHead(d, sid), o)
      else (AfterAsk(w, r), FailStream(OpenHead(d, sid), sid, IoFault), false)
  }

  /** `dispatch_waiting_requests`. */
  function DispatchAll(w: World, d: Desk, o: Outside): (World, Desk, bool)
    requires ValidEngine(w.engine)
  {
    if w.engine.send.conn.error.Some? then (w, NotifyWaiting(d, GoAwayFault), true) else Dispatch(w, d, o)
  }

  function NotifyBoth(d: Desk, o: Outside, fault: Fault): Desk {
    NotifyWaiting(NotifyAll(d, o.hash(d.pending), fault), fault)
  }

  // ---- The system ---------------------------------------------------------------------------------

  datatype Command = Command(id: nat, request: Request)

  const CHANNEL_SIZE: nat := 64

  /** Driver and callers. `senders` hold a permit and have not queued yet; `returned` lists the ids
      whose permit came back before they reached the driver's queue. */
  datatype System = System(
    world: World, desk: Desk, shutdown: bool, running: bool,
    channel: seq<Command>, senders: set<nat>, cancels: seq<nat>, cancelOpen: bool,
    returned: seq<nat>, nextId: nat, free: int, limit: Option<nat>)

  function CommandIds(cs: seq<Command>): (ids: seq<nat>)
    ensures |ids| == |cs|
  {
    if cs == [] then [] else [cs[0].id] + CommandIds(cs[1..])
  }

  /** A permit is given back when a request leaves the queue. */
  function Settle(s: System, d: Desk): System {
    s.(desk := d, free := s.free + (|d.released| - |s.desk.released|))
  }

  /** The loop ends: commands still in the channel are dropped with their permits. */
  function Exit(s: System): System {
    s.(running := false, channel := [], returned := s.returned + CommandIds(s.channel), free := s.free + |s.channel|)
  }

  predicate AllDone(d: Desk) {
    d.waiting == [] && d.pending == map[]
  }

  function EventsOf(ls: seq<Label>): seq<H2Event>
    requires forall i :: 0 <= i < |ls| ==> ls[i].Receive?
  {
    if ls == [] then [] else ls[0].output.events + EventsOf(ls[1..])
  }

  datatype Arm =
    | Acquire
    | Enqueue(id: nat, request: Request)
    | Abandon(id: nat)
    | Cancel(id: nat)
    | OnCancel
    | OnCancelClosed
    | OnRead(ws: seq<World>, ls: seq<Label>, bad: Option<CodecError>, wrote: bool)
    | OnClosed
    | OnCommand
    | OnShutdown
    | OnTimeout

  /** What follows an arm that does not leave the loop. */
  function AfterArm(s: System, o: Outside): System
    requires ValidEngine(s.world.engine)
  {
    var (w, d, ok) := DispatchAll(s.world, s.desk, o);
    if !ok then Exit(Settle(s, NotifyBoth(d, o, IoFault)).(world := w))
    else
      var t := Settle(s, d).(world := w);
      if t.shutdown && AllDone(d) then Exit(t) else t
  }

  function Abort(s: System, o: Outside, fault: Fault): System {
    Exit(Settle(s, NotifyBoth(s.desk, o, fault)))
  }

  /** `process` handled these frames, one after the other. */
  ghost predicate Handles(w: World, ws: seq<World>, ls: seq<Label>) {
    && |ws| == |ls| + 1 && ws[0] == w
    && (forall i :: 0 <= i < |ls| ==> ls[i].Receive? && Next(ws[i], ls[i], ws[i + 1]))
    && ValidEngine(ws[|ls|].engine)
  }

  function Events(ls: seq<Label>, bad: Option<CodecError>): seq<H2Event>
    requires forall i :: 0 <= i < |ls| ==> ls[i].Receive?
  {
    EventsOf(ls) + if bad.Some? then [EngineError(BadFrame(bad.value))] else []
  }

  function TakeCommand(s: System, o: Outside): System
    requires s.channel != []
  {
    var c := s.channel[0];
    var t := s.(channel := s.channel[1..]);
    if o.gone(c.id) then t.(returned := s.returned + [c.id], free := s.free + 1)
    else t.(desk := Arrive(s.desk, c.id, c.request))
  }

  /** One step of a caller, or one turn of the driver's loop. */
  ghost predicate Step(s: System, a: Arm, o: Outside, s': System) {
    match a
    case Acquire =>
      && s.running && (s.limit.Some? ==> s.free > 0)
      && s' == s.(senders := s.senders + {s.nextId}, nextId := s.nextId + 1, free := s.free - 1)
    case Enqueue(id, request) =>
      && s.running && id in s.senders && |s.channel| < CHANNEL_SIZE
      && s' == s.(senders := s.senders - {id}, channel := s.channel + [Command(id, request)])
    case Abandon(id) =>
      && id in s.senders
      && s' == s.(senders := s.senders - {id}, returned := s.returned + [id], free := s.free + 1)
    case Cancel(id) => s' == s.(cancels := s.cancels + [id])
    case OnCancel =>
      && s.running && s.cancelOpen && s.cancels != [] && ValidEngine(s.world.engine)
      && s' == AfterArm(Settle(s, RemoveWaiting(s.desk, s.cancels[0])).(cancels := s.cancels[1..]), o)
    case OnCancelClosed =>
      && s.running && s.cancelOpen && s.cancels == [] && ValidEngine(s.world.engine)
      && s' == AfterArm(s.(cancelOpen := false), o)
    case OnRead(ws, ls, bad, wrote) =>
      && s.running && Handles(s.world, ws, ls)
      && var t := s.(world := ws[|ls|]);
         s' == if wrote then AfterArm(Settle(t, OnEvents(s.desk, Events(ls, bad), o.hash, o.status)), o)
               else Abort(t, o, IoFault)
    case OnClosed => s.running && s' == Abort(s, o, IoFault)
    case OnCommand =>
      s.running && !s.shutdown && s.channel != [] && ValidEngine(s.world.engine) && s' == AfterArm(TakeCommand(s, o), o)
    case OnShutdown =>
      && s.running && !s.shutdown && ValidEngine(s.world.engine)
      && var t := s.(shutdown := true);
         s' == if AllDone(s.desk) then Exit(t) else AfterArm(t, o)
    case OnTimeout => s.running && s.shutdown && s' == Abort(s, o, ShutdownFault)
  }

  function Base(w: World, limit: Option<nat>): System {
    System(w, EMPTY_DESK, false, true, [], {}, [], true, [], 0, if limit.Some? then limit.value else 0, limit)
  }

  /** A fresh driver, with or without a request written straight after the preface. */
  ghost predicate Begins(s: System, first: Option<Request>, limit: Option<nat>, o: Outside) {
    && (limit.Some? ==> limit.value > 0)
    && exists w, profile, windowUpdate, blockLimit, policy :: BeginsWith(s, first, limit, o, w, profile, windowUpdate, blockLimit, policy)
  }

  ghost predicate BeginsWith(s: System, first: Option<Request>, limit: Option<nat>, o: Outside, w: World,
                             profile: seq<SettingsParameter>, windowUpdate: u32, blockLimit: nat, policy: FlowPolicy) {
    && Start(w, profile, windowUpdate, blockLimit, policy)
    && s == if first.None? then Base(w, limit) else WithFirst(Base(w, limit), first.value, o)
  }

  /** `write_first_request`; the driver does not start if it cannot be written. */
  function WithFirst(s: System, r: Request, o: Outside): System
    requires ValidEngine(s.world.engine)
  {
    var sid := s.world.engine.send.conn.nextStreamId;
    var t := s.(world := AfterAsk(s.world, r), desk := OpenFirst(s.desk, sid));
    if o.writes(sid) then t else Exit(t.(desk := RejectStream(t.desk, sid, IoFault)))
  }
}
