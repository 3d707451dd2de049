/** What a caller may conclude from a response that looks complete: over whole runs, exactly when its
    body is all that the peer sent up to END_STREAM. */
module CompleteResponses {
  import opened Wire
  import opened Frames
  import opened Codec
  import HB = HeaderBlocks
  import opened Streams
  import opened Connection
  import opened Policy
  import opened Engine
  import opened EngineLaws
  import opened EngineTheorems
  import opened EngineObject
  import opened RequestDesk
  import opened Replies
  import opened Driver
  import opened DriverRuns
  import opened DriverTheorems
  import opened ResponseBodies
  import opened WholeBodies
  import opened WireReplies

  // ---- What the caller sees -----------------------------------------------------------------------

  /** A response's headers, the end, and no failure. */
  predicate Complete(xs: seq<Delivery>, rank: nat) {
    && (exists i :: 0 <= i < |xs| && IsResponse(xs[i]))
    && End(rank) in xs && forall i :: 0 <= i < |xs| ==> !IsFailure(xs[i])
  }

  predicate SeesComplete(d: Desk, rank: nat) {
    Complete(Mine(d.log, rank), rank)
  }

  predicate SeesEnd(d: Desk, rank: nat) {
    End(rank) in Mine(d.log, rank)
  }

  lemma {:induction false} MineHas(log: seq<Delivery>, rank: nat, x: Delivery)
    ensures x in Mine(log, rank) <==> x in log && x.who == rank
  {
    if log != [] {
      MineHas(log[..|log| - 1], rank, x);
      assert log == log[..|log| - 1] + [log[|log| - 1]];
    }
  }

  /** What the driver does of itself, without an event, never makes a response look complete. */
  predicate Candid(d: Desk, d': Desk, rank: nat) {
    && (SeesEnd(d, rank) ==> SeesEnd(d', rank))
    && (SeesComplete(d', rank) ==> SeesComplete(d, rank))
  }

  lemma CandidSame(d: Desk, d': Desk, rank: nat)
    requires d'.log == d.log
    ensures Candid(d, d', rank)
  {
  }

  /** Words to someone else, or words that tell of a failure. */
  lemma CandidFailure(d: Desk, d': Desk, block: seq<Delivery>, who: nat, k: nat, rank: nat)
    requires d'.log == d.log + block && k < |block| && IsFailure(block[k])
    requires forall i :: 0 <= i < |block| ==> block[i].who == who
    ensures Candid(d, d', rank)
  {
    MineBlock(d.log, block, who, rank);
    if who == rank {
      assert IsFailure(Mine(d'.log, rank)[|Mine(d.log, rank)| + k]);
    } else {
      assert Mine(d'.log, rank) == Mine(d.log, rank);
    }
  }

  /** An end told to someone never answered. */
  lemma CandidUnheard(d: Desk, d': Desk, who: nat, rank: nat)
    requires d'.log == d.log + [End(who)] && Silent(d.log, who)
    ensures Candid(d, d', rank)
  {
    MineBlock(d.log, [End(who)], who, rank);
    if who == rank {
      MineNone(d.log, rank);
    } else {
      assert Mine(d'.log, rank) == Mine(d.log, rank);
    }
  }

  lemma FailCandid(d: Desk, sid: u32, fault: Fault, rank: nat)
    ensures Candid(d, FailStream(d, sid, fault), rank)
  {
    if sid in d.pending {
      var p := d.pending[sid];
      var block := Farewell(p, fault, true);
      EndLog(d, sid, fault, true);
      CandidFailure(d, FailStream(d, sid, fault), block, p.rank, |block| - 2, rank);
    }
  }

  lemma {:induction false} EachCandid(d: Desk, order: seq<u32>, fault: Fault, rank: nat)
    ensures Candid(d, Each(d, order, Failing(fault)), rank)
    decreases |order|
  {
    if order != [] {
      FailCandid(d, order[0], fault, rank);
      EachCandid(Failing(fault)(d, order[0]), order[1..], fault, rank);
    }
  }

  lemma {:induction false} NotifyWaitingCandid(d: Desk, fault: Fault, rank: nat)
    ensures Candid(d, NotifyWaiting(d, fault), rank)
    decreases |d.waiting|
  {
    if d.waiting != [] {
      var said := Regret(d.waiting[0].rank, fault);
      CandidFailure(d, Leave(d, 0, said), said, d.waiting[0].rank, 0, rank);
      NotifyWaitingCandid(Leave(d, 0, said), fault, rank);
    }
  }

  lemma NotifyBothCandid(d: Desk, o: Outside, fault: Fault, rank: nat)
    ensures Candid(d, NotifyBoth(d, o, fault), rank)
  {
    EachCandid(d, o.hash(d.pending), fault, rank);
    NotifyWaitingCandid(NotifyAll(d, o.hash(d.pending), fault), fault, rank);
  }

  lemma DiscardCandid(d: Desk, i: nat, rank: nat)
    requires i < |d.waiting| && QueueOk(d)
    ensures Candid(d, Discard(d, i), rank)
  {
    CandidUnheard(d, Discard(d, i), d.waiting[i].rank, rank);
  }

  lemma OpenFailCandid(d: Desk, sid: u32, rank: nat)
    requires d.waiting != []
    ensures Candid(d, OpenHead(d, sid), rank) && Candid(d, FailStream(OpenHead(d, sid), sid, IoFault), rank)
  {
    CandidSame(d, OpenHead(d, sid), rank);
    FailCandid(OpenHead(d, sid), sid, IoFault, rank);
  }

  lemma QueueFacts(w: World, d: Desk)
    requires Sound(w, d)
    ensures QueueOk(d)
  {
  }

  lemma {:induction false} DispatchCandid(w: World, d: Desk, o: Outside, rank: nat)
    requires Sound(w, d) && Dispatch(w, d, o).0.opens <= MAX_OPENS
    ensures Candid(d, Dispatch(w, d, o).1, rank)
    decreases |d.waiting|
  {
    if d.waiting != [] && CanOpenStream(w.engine.send.conn) {
      if o.gone(d.waiting[0].id) {
        QueueFacts(w, d);
        DiscardCandid(d, 0, rank);
        DiscardSound(w, d);
        DispatchCandid(w, Discard(d, 0), o, rank);
      } else {
        var sid := w.engine.send.conn.nextStreamId;
        OpenFailCandid(d, sid, rank);
        if o.writes(sid) {
          OpenSound(w, d, sid);
          DispatchCandid(AfterAsk(w, d.waiting[0].request), OpenHead(d, sid), o, rank);
        }
      }
    }
  }

  lemma DispatchAllCandid(w: World, d: Desk, o: Outside, rank: nat)
    requires Sound(w, d) && DispatchAll(w, d, o).0.opens <= MAX_OPENS
    ensures Candid(d, DispatchAll(w, d, o).1, rank)
  {
    if w.engine.send.conn.error.Some? {
      NotifyWaitingCandid(d, GoAwayFault, rank);
    } else {
      DispatchCandid(w, d, o, rank);
    }
  }

  lemma AfterArmCandid(s: System, o: Outside, rank: nat)
    requires Sound(s.world, s.desk) && AfterArm(s, o).world.opens <= MAX_OPENS
    ensures Candid(s.desk, AfterArm(s, o).desk, rank)
  {
    var (w, d, ok) := DispatchAll(s.world, s.desk, o);
    DispatchAllCandid(s.world, s.desk, o, rank);
    if !ok {
      NotifyBothCandid(d, o, IoFault, rank);
    }
  }

  // ---- Steps without events -----------------------------------------------------------------------

  lemma ThenArm(d: Desk, s1: System, o: Outside, rank: nat)
    requires Sound(s1.world, s1.desk) && AfterArm(s1, o).world.opens <= MAX_OPENS && Candid(d, s1.desk, rank)
    ensures Candid(d, AfterArm(s1, o).desk, rank)
  {
    AfterArmCandid(s1, o, rank);
  }

  lemma RemoveCandid(d: Desk, id: nat, rank: nat)
    requires QueueOk(d)
    ensures Candid(d, RemoveWaiting(d, id), rank)
  {
    if Position(d.waiting, id) < |d.waiting| {
      DiscardCandid(d, Position(d.waiting, id), rank);
    }
  }

  lemma CancelCandid(s: System, s1: System, o: Outside, id: nat, rank: nat)
    requires Sound(s.world, s.desk) && s1.world == s.world && s1.desk == RemoveWaiting(s.desk, id)
    requires ValidEngine(s1.world.engine) && AfterArm(s1, o).world.opens <= MAX_OPENS
    ensures Candid(s.desk, AfterArm(s1, o).desk, rank)
  {
    RemoveSound(s.world, s.desk, id);
    QueueFacts(s.world, s.desk);
    RemoveCandid(s.desk, id, rank);
    ThenArm(s.desk, s1, o, rank);
  }

  lemma CommandCandid(s: System, o: Outside, rank: nat)
    requires Sound(s.world, s.desk) && s.channel != []
    requires AfterArm(TakeCommand(s, o), o).world.opens <= MAX_OPENS
    ensures Candid(s.desk, AfterArm(TakeCommand(s, o), o).desk, rank)
  {
    TakeSound(s, o);
    ThenArm(s.desk, TakeCommand(s, o), o, rank);
  }

  lemma TurnCandid(s: System, a: Arm, o: Outside, s': System, rank: nat)
    requires Sound(s.world, s.desk) && SysNext(s, a, o, s') && (a.OnCancel? || a.OnShutdown? || a.OnCancelClosed?)
    ensures Candid(s.desk, s'.desk, rank)
  {
    if a.OnCancel? {
      var s1 := Settle(s, RemoveWaiting(s.desk, s.cancels[0])).(cancels := s.cancels[1..]);
      CancelCandid(s, s1, o, s.cancels[0], rank);
    } else if a.OnCancelClosed? {
      ThenArm(s.desk, s.(cancelOpen := false), o, rank);
    } else if !AllDone(s.desk) {
      ThenArm(s.desk, s.(shutdown := true), o, rank);
    }
  }

  lemma EndingCandid(s: System, a: Arm, o: Outside, s': System, rank: nat)
    requires SysNext(s, a, o, s') && (a.OnClosed? || a.OnTimeout? || (a.OnRead? && !a.wrote))
    ensures Candid(s.desk, s'.desk, rank)
  {
    NotifyBothCandid(s.desk, o, if a.OnTimeout? then ShutdownFault else IoFault, rank);
  }

  lemma SilentCandid(s: System, a: Arm, o: Outside, s': System, rank: nat)
    requires Sound(s.world, s.desk) && SysNext(s, a, o, s') && Silently(a)
    ensures Candid(s.desk, s'.desk, rank)
  {
    if a.OnCommand? {
      CommandCandid(s, o, rank);
    } else if a.OnCancel? || a.OnShutdown? || a.OnCancelClosed? {
      TurnCandid(s, a, o, s', rank);
    } else if a.OnClosed? || a.OnTimeout? || a.OnRead? {
      EndingCandid(s, a, o, s', rank);
    }
  }

  // ---- Events -------------------------------------------------------------------------------------

  /** A graceful GOAWAY that does not admit the stream. */
  predicate Cuts(ev: H2Event, sid: u32) {
    ev.GoAwayReceived? && ev.errorCode == 0 && sid > ev.lastStreamId
  }

  /** The peer's END_STREAM, with its final headers or with data. */
  predicate Ends(ev: H2Event, sid: u32, status: HeaderList -> nat) {
    || (ev.ResponseHeaders? && ev.streamId == sid && ev.endStream && !Interim(status(ev.headers)))
    || (ev.ResponseData? && ev.streamId == sid && ev.endStream)
  }

  /** Nothing more is said to a caller that no longer waits. */
  lemma DoneHearsNothing(d: Desk, ev: H2Event, hash: HashOrder, status: HeaderList -> nat, sid: u32, rank: nat)
    requires OnlyOn(d, sid, rank) && !Waits(d, sid, rank)
    ensures Mine(OnEvent(d, ev, hash, status).log, rank) == Mine(d.log, rank)
  {
    match ev
    case ResponseHeaders(s, headers, endStream) =>
      if s in d.pending && !Interim(status(headers)) {
        HeadersTell(d, s, Response(status(headers), headers), endStream, rank);
      }
    case ResponseData(s, data, endStream) =>
      if s in d.pending {
        DataTells(d, s, data, endStream, rank);
      }
    case StreamReset(s, code) => EndMine(d, sid, s, rank, ResetFault(code), true);
    case GoAwayReceived(last, code, _) =>
      NotifyAllTells(d, hash(d.pending), GoAwayFault, sid, rank);
      RejectAboveTells(d, hash(d.pending), last, sid, rank);
    case _ =>
  }

  lemma {:induction false} DoneHears(d: Desk, evs: seq<H2Event>, hash: HashOrder, status: HeaderList -> nat,
                                     sid: u32, rank: nat)
    requires OnlyOn(d, sid, rank) && !Waits(d, sid, rank)
    ensures Mine(OnEvents(d, evs, hash, status).log, rank) == Mine(d.log, rank)
    decreases |evs|
  {
    if evs != [] {
      DoneHearsNothing(d, evs[0], hash, status, sid, rank);
      EventShrinks(d, evs[0], hash, status);
      DoneHears(OnEvent(d, evs[0], hash, status), evs[1..], hash, status, sid, rank);
    }
  }

  /** A waiting caller has not seen an end, and headers only if they are out. */
  lemma WaitingSees(d: Desk, sid: u32, rank: nat)
    requires DeskInv(d) && Waits(d, sid, rank)
    ensures !SeesEnd(d, rank)
    ensures d.pending[sid].headers ==> forall i :: 0 <= i < |Mine(d.log, rank)| ==> !IsResponse(Mine(d.log, rank)[i])
  {
    MineHas(d.log, rank, End(rank));
    forall i | 0 <= i < |Mine(d.log, rank)| && d.pending[sid].headers
      ensures !IsResponse(Mine(d.log, rank)[i])
    {
      MineHas(d.log, rank, Mine(d.log, rank)[i]);
    }
  }

  /** Headers and end arrive together, or the headers came before. */
  lemma CompleteLooks(xs: seq<Delivery>, p: Pending, more: seq<Delivery>)
    requires Complete(xs + more, p.rank) && End(p.rank) !in xs
    requires p.headers ==> forall i :: 0 <= i < |xs| ==> !IsResponse(xs[i])
    ensures LooksComplete(p, more)
  {
    var all := xs + more;
    if p.headers {
      var i :| 0 <= i < |all| && IsResponse(all[i]);
      assert more[i - |xs|] == all[i];
    }
    assert forall i :: 0 <= i < |more| ==> more[i] == all[|xs| + i];
  }

  lemma EndedDoesNotWait(d: Desk, sid: u32, rank: nat)
    requires PendingOk(d) && SeesEnd(d, rank)
    ensures !Waits(d, sid, rank)
  {
    MineHas(d.log, rank, End(rank));
  }

  lemma RepliedEnds(p: Pending, sid: u32, ev: H2Event, status: HeaderList -> nat)
    requires Cuts(ev, sid) || Ends(ev, sid, status)
    ensures End(p.rank) in Replied(p, sid, ev, status)
  {
    var more := Replied(p, sid, ev, status);
    assert more[|more| - 1] == End(p.rank);
  }

  /** END_STREAM and a graceful GOAWAY end the waiting. */
  lemma EventEnds(d: Desk, ev: H2Event, o: Outside, sid: u32, rank: nat)
    requires DeskInv(d) && ValidOutside(o) && Waits(d, sid, rank) && (Cuts(ev, sid) || Ends(ev, sid, o.status))
    ensures var d' := OnEvent(d, ev, o.hash, o.status); SeesEnd(d', rank) && !Waits(d', sid, rank)
  {
    EventReplies(d, ev, o, sid, rank);
    RepliedEnds(d.pending[sid], sid, ev, o.status);
    OnEventKeeps(d, ev, o.hash, o.status);
    EndedDoesNotWait(OnEvent(d, ev, o.hash, o.status), sid, rank);
  }

  /** No other event makes a response look complete. */
  lemma EventCompletes(d: Desk, ev: H2Event, o: Outside, sid: u32, rank: nat)
    requires DeskInv(d) && ValidOutside(o) && Waits(d, sid, rank)
    requires SeesComplete(OnEvent(d, ev, o.hash, o.status), rank)
    ensures Cuts(ev, sid) || Ends(ev, sid, o.status)
  {
    var p := d.pending[sid];
    EventReplies(d, ev, o, sid, rank);
    WaitingSees(d, sid, rank);
    CompleteLooks(Mine(d.log, rank), p, Replied(p, sid, ev, o.status));
    LooksCompleteIff(p, sid, ev, o.status);
  }

  // ---- Reads --------------------------------------------------------------------------------------

  /** The frame is a graceful GOAWAY that does not admit the stream. */
  predicate CutBy(l: Label, sid: u32) {
    l.Receive? && l.frame.GoAway? && l.frame.errorCode == 0 && sid > l.frame.lastStreamId
  }

  /** The frame carries the peer's END_STREAM: DATA that is welcome, or the last of a final header block. */
  predicate EndedBy(w: World, l: Label, o: Outside, sid: u32) {
    && l.Receive?
    && (|| (l.frame.Data? && l.frame.streamId == sid && l.frame.endStream && Welcome(w.engine, l.frame))
        || (Answers(w.engine, l.frame, l.decoded, sid, o.status) && HB.Push(w.engine.assembler, l.frame).1.endStream))
  }

  /** The event reported says so too, and there is no other. */
  predicate Matches(w: World, l: Label, o: Outside, sid: u32) {
    && l.Receive? && |l.output.events| <= 1
    && (CutBy(l, sid) <==> l.output.events != [] && Cuts(l.output.events[0], sid))
    && (EndedBy(w, l, o, sid) <==> l.output.events != [] && Ends(l.output.events[0], sid, o.status))
  }

  lemma DataMatches(w: World, l: Label, o: Outside, sid: u32)
    requires ValidEngine(w.engine) && l.Receive? && l.frame.Data? && 0 <= w.engine.send.conn.recvWindow
    requires var f := l.frame; l.output == HandleData(w.engine, f.streamId, f.data, f.endStream, f.padding).1
    requires l.frame.streamId in w.engine.send.conn.streams ==> 0 <= w.engine.send.conn.streams[l.frame.streamId].recvWindow
    ensures Matches(w, l, o, sid)
  {
    assert FlowLength(l.frame.data, l.frame.padding) == Weight(l.frame);
  }

  lemma HeadersMatch(w: World, l: Label, o: Outside, sid: u32)
    requires l.Receive? && (l.frame.Headers? || l.frame.Continuation?)
    requires l.output == HandleHeaderFrame(w.engine, l.frame, l.decoded).1
    ensures Matches(w, l, o, sid)
  {
  }

  lemma FrameMatches(w: World, l: Label, w': World, o: Outside, sid: u32)
    requires Reachable(w) && Next(w, l, w') && l.Receive?
    ensures Matches(w, l, o, sid)
  {
    WindowsInRange(w);
    if l.frame.Data? {
      DataMatches(w, l, o, sid);
    } else if l.frame.Headers? || l.frame.Continuation? {
      HeadersMatch(w, l, o, sid);
    }
  }

  /** A graceful GOAWAY ends the caller's waiting. */
  predicate CutIn(d: Desk, ls: seq<Label>, o: Outside, sid: u32, rank: nat)
    requires Inward(ls)
    decreases |ls|
  {
    ls != [] && Waits(d, sid, rank) && (CutBy(ls[0], sid) || CutIn(After(d, ls[0], o), ls[1..], o, sid, rank))
  }

  /** The peer's END_STREAM ends the caller's waiting. */
  predicate EndedIn(d: Desk, ws: seq<World>, ls: seq<Label>, o: Outside, sid: u32, rank: nat)
    requires |ws| == |ls| + 1 && Inward(ls)
    decreases |ls|
  {
    && ls != [] && Waits(d, sid, rank)
    && (EndedBy(ws[0], ls[0], o, sid) || EndedIn(After(d, ls[0], o), ws[1..], ls[1..], o, sid, rank))
  }

  /** How a caller's waiting ended, and what it sees. */
  predicate Explained(d: Desk, cut: bool, ended: bool, rank: nat) {
    && (SeesComplete(d, rank) ==> cut || ended) && (cut || ended ==> SeesEnd(d, rank)) && !(cut && ended)
  }

  lemma EventsSeen(d: Desk, w: World, l: Label, o: Outside, sid: u32, rank: nat)
    requires Matches(w, l, o, sid) && DeskInv(d) && ValidOutside(o) && Waits(d, sid, rank)
    ensures Explained(After(d, l, o), CutBy(l, sid), EndedBy(w, l, o, sid), rank)
    ensures CutBy(l, sid) || EndedBy(w, l, o, sid) ==> !Waits(After(d, l, o), sid, rank)
  {
    var evs := l.output.events;
    if evs == [] {
      WaitingSees(d, sid, rank);
    } else {
      OnlyEvent(d, evs, o.hash, o.status);
      if Cuts(evs[0], sid) || Ends(evs[0], sid, o.status) {
        EventEnds(d, evs[0], o, sid, rank);
      } else if SeesComplete(After(d, l, o), rank) {
        EventCompletes(d, evs[0], o, sid, rank);
      }
    }
  }

  lemma AfterDone(d: Desk, ws: seq<World>, ls: seq<Label>, o: Outside, sid: u32, rank: nat, cut: bool, ended: bool)
    requires |ws| == |ls| + 1 && Inward(ls) && OnlyOn(d, sid, rank) && !Waits(d, sid, rank) && Explained(d, cut, ended, rank)
    ensures Explained(OnEvents(d, EventsOf(ls), o.hash, o.status), cut, ended, rank)
    ensures !CutIn(d, ls, o, sid, rank) && !EndedIn(d, ws, ls, o, sid, rank)
  {
    DoneHears(d, EventsOf(ls), o.hash, o.status, sid, rank);
  }

  /** Every frame of a read reports what it carries. */
  predicate Matched(ws: seq<World>, ls: seq<Label>, o: Outside, sid: u32) {
    |ws| == |ls| + 1 && Inward(ls) && forall i :: 0 <= i < |ls| ==> Matches(ws[i], ls[i], o, sid)
  }

  lemma HandlesMatched(w: World, ws: seq<World>, ls: seq<Label>, o: Outside, sid: u32)
    requires Reachable(w) && Handles(w, ws, ls)
    ensures Matched(ws, ls, o, sid)
  {
    forall i | 0 <= i < |ls|
      ensures Matches(ws[i], ls[i], o, sid)
    {
      HandlesReaches(w, ws, ls, i);
      FrameMatches(ws[i], ls[i], ws[i + 1], o, sid);
    }
  }

  lemma {:induction false} ReadSeen(d: Desk, ws: seq<World>, ls: seq<Label>, o: Outside, sid: u32, rank: nat)
    requires Matched(ws, ls, o, sid) && DeskInv(d) && ValidOutside(o) && OnlyOn(d, sid, rank) && Waits(d, sid, rank)
    ensures Explained(OnEvents(d, EventsOf(ls), o.hash, o.status), CutIn(d, ls, o, sid, rank),
                      EndedIn(d, ws, ls, o, sid, rank), rank)
    decreases |ls|
  {
    if ls == [] {
      WaitingSees(d, sid, rank);
    } else {
      var d1 := After(d, ls[0], o);
      EventsSeen(d, ws[0], ls[0], o, sid, rank);
      OnEventsKeeps(d, ls[0].output.events, o.hash, o.status);
      EventsChunks(d, ls[0].output.events, o.hash, o.status, sid, rank);
      OnEventsAppend(d, ls[0].output.events, EventsOf(ls[1..]), o.hash, o.status);
      if Waits(d1, sid, rank) {
        ReadSeen(d1, ws[1..], ls[1..], o, sid, rank);
      } else {
        AfterDone(d1, ws[1..], ls[1..], o, sid, rank, CutBy(ls[0], sid), EndedBy(ws[0], ls[0], o, sid));
      }
    }
  }

  // ---- Whole runs ---------------------------------------------------------------------------------

  /** A graceful GOAWAY cut the response off. */
  predicate CutOff(t: Trace, sid: u32, rank: nat) {
    match t
    case Begun(_, _) => false
    case Then(before, a, o, _) =>
      CutOff(before, sid, rank) || (Reports(a) && CutIn(before.s.desk, a.ls, o, sid, rank))
  }

  /** The peer ended the response. */
  predicate PeerDone(t: Trace, sid: u32, rank: nat) {
    match t
    case Begun(_, _) => false
    case Then(before, a, o, _) =>
      PeerDone(before, sid, rank) || (Reports(a) && EndedIn(before.s.desk, a.ws, a.ls, o, sid, rank))
  }

  lemma ReadExplained(s: System, ws: seq<World>, ls: seq<Label>, bad: Option<CodecError>, o: Outside, s': System,
                 sid: u32, rank: nat, cut: bool, ended: bool)
    requires SysInv(s) && SysNext(s, OnRead(ws, ls, bad, true), o, s') && OnlyOn(s.desk, sid, rank)
    requires Explained(s.desk, cut, ended, rank)
    ensures Explained(s'.desk, cut || CutIn(s.desk, ls, o, sid, rank), ended || EndedIn(s.desk, ws, ls, o, sid, rank), rank)
  {
    HandlesReaches(s.world, ws, ls, |ls|);
    var d := OnEvents(s.desk, Events(ls, bad), o.hash, o.status);
    BadIsQuiet(s.desk, ls, bad, o);
    EventsSound(s.world, s.desk, Events(ls, bad), o, ws[|ls|]);
    if Waits(s.desk, sid, rank) {
      WaitingSees(s.desk, sid, rank);
      HandlesMatched(s.world, ws, ls, o, sid);
      ReadSeen(s.desk, ws, ls, o, sid, rank);
    } else {
      AfterDone(s.desk, ws, ls, o, sid, rank, cut, ended);
    }
    AfterArmCandid(Settle(s.(world := ws[|ls|]), d), o, rank);
  }

  lemma BegunExplained(s: System, first: Option<Request>, rank: nat)
    requires DriverTheorems.Fresh(s, first)
    ensures Explained(s.desk, false, false, rank)
  {
    var limit, o :| Begins(s, first, limit, o);
    var w, profile, windowUpdate, blockLimit, policy :|
      BeginsWith(s, first, limit, o, w, profile, windowUpdate, blockLimit, policy);
    if first.Some? {
      FirstExplained(w, limit, first.value, o, rank);
    }
  }

  lemma FirstExplained(w: World, limit: Option<nat>, r: Request, o: Outside, rank: nat)
    requires ValidEngine(w.engine)
    ensures Explained(WithFirst(Base(w, limit), r, o).desk, false, false, rank)
  {
    var sid := w.engine.send.conn.nextStreamId;
    var d := OpenFirst(EMPTY_DESK, sid);
    EndLog(d, sid, IoFault, false);
    CandidFailure(d, RejectStream(d, sid, IoFault), Farewell(d.pending[sid], IoFault, false), 0, 0, rank);
  }

  lemma StepExplained(s: System, a: Arm, o: Outside, s': System, sid: u32, rank: nat, cut: bool, ended: bool)
    requires SysInv(s) && SysNext(s, a, o, s') && OnlyOn(s.desk, sid, rank) && Explained(s.desk, cut, ended, rank)
    ensures Explained(s'.desk, cut || (Reports(a) && CutIn(s.desk, a.ls, o, sid, rank)),
                 ended || (Reports(a) && EndedIn(s.desk, a.ws, a.ls, o, sid, rank)), rank)
  {
    if Silently(a) {
      SilentCandid(s, a, o, s', rank);
    } else {
      ReadExplained(s, a.ws, a.ls, a.bad, o, s', sid, rank, cut, ended);
    }
  }

  lemma {:induction false} RunExplained(t: Trace, sid: u32, rank: nat)
    requires SysRun(t) && OpenedOn(t.s.desk, sid, rank)
    ensures Explained(t.s.desk, CutOff(t, sid, rank), PeerDone(t, sid, rank), rank)
  {
    if t.Begun? {
      BegunExplained(t.s, t.first, rank);
    } else {
      OpenedEarlier(t, sid, rank);
      RunExplained(t.before, sid, rank);
      StepExplained(t.before.s, t.arm, t.outside, t.s, sid, rank, CutOff(t.before, sid, rank), PeerDone(t.before, sid, rank));
    }
  }

  /** What a response that looks complete is worth, over every run: it was ended by the peer or cut off by
      a graceful GOAWAY. It is whole, all DATA payloads up to the peer's END_STREAM, exactly when no GOAWAY
      cut it off and none of its DATA frames met a branch that drops it. */
  lemma CompleteIsWholeIff(t: Trace, sid: u32, rank: nat)
    requires SysRun(t) && OpenedOn(t.s.desk, sid, rank) && SeesComplete(t.s.desk, rank)
    ensures CutOff(t, sid, rank) <==> !PeerDone(t, sid, rank)
    ensures PeerDone(t, sid, rank) && Chunks(t.s.desk.log, rank) == OfferedTo(t, sid, rank)
            <==> !CutOff(t, sid, rank) && !LostFor(t, sid, rank)
  {
    RunExplained(t, sid, rank);
    BodyWholeIff(t, sid, rank);
  }
}
