/** Whole bodies: over whole runs, exactly when the chunks a caller was sent are all the DATA the peer
    sent on its stream. */
module WholeBodies {
  import opened Wire
  import opened Frames
  import opened Codec
  import opened Streams
  import opened Connection
  import opened Policy
  import opened Engine
  import opened EngineLaws
  import opened EngineTheorems
  import opened EngineObject
  import opened RequestDesk
  import opened Replies
  import opened Driver
  import opened DriverRuns
  import opened DriverTheorems
  import opened ResponseBodies

  // ---- One frame ----------------------------------------------------------------------------------

  /** The body bytes a frame carries for a stream, whether or not the engine takes them. */
  function PayloadOf(l: Label, sid: u32): bytes {
    if l.Receive? && l.frame.Data? && l.frame.streamId == sid then l.frame.data else []
  }

  /** The frame has bytes for the stream and meets a branch that drops them: the connection window is
      short, the stream may not receive, or its own window is short. */
  predicate Drops(w: World, l: Label, sid: u32) {
    PayloadOf(l, sid) != [] && !Accepts(w.engine, l.frame)
  }

  lemma TakenUnlessDropped(w: World, l: Label, sid: u32)
    ensures AcceptedFrom(w, l, sid) == if Drops(w, l, sid) then [] else PayloadOf(l, sid)
  {
  }

  lemma OneEvent(e: Engine, f: H2Frame, decoded: Option<HeaderList>, e': Engine, out: Output)
    requires ValidEngine(e) && Handled(e, f, decoded, e', out)
    ensures |out.events| <= 1
  {
  }

  function After(d: Desk, l: Label, o: Outside): Desk
    requires l.Receive?
  {
    OnEvents(d, l.output.events, o.hash, o.status)
  }

  /** A frame brings a waiting caller what the engine took of it, before it may end the waiting. */
  lemma FrameChunks(w: World, l: Label, w': World, d: Desk, o: Outside, sid: u32, rank: nat)
    requires Next(w, l, w') && l.Receive? && OnlyOn(d, sid, rank)
    ensures Chunks(After(d, l, o).log, rank)
            == Chunks(d.log, rank) + (if Waits(d, sid, rank) then AcceptedFrom(w, l, sid) else [])
    ensures Shrinks(d.pending, After(d, l, o).pending)
  {
    var evs := l.output.events;
    OneEvent(w.engine, l.frame, l.decoded, w'.engine, l.output);
    LabelData(w, l, w', sid);
    EventsChunks(d, evs, o.hash, o.status, sid, rank);
    if Waits(d, sid, rank) {
      EventsExact(d, evs, o.hash, o.status, sid, rank);
      assert evs[..|evs|] == evs;
      if evs != [] {
        assert evs[1..] == [];
      }
    } else {
      assert Chunks(d.log, rank) + [] == Chunks(d.log, rank);
    }
  }

  // ---- One read -----------------------------------------------------------------------------------

  predicate Inward(ls: seq<Label>) {
    forall i :: 0 <= i < |ls| ==> ls[i].Receive?
  }

  /** What the engine takes for the stream while its caller waits. */
  function Taken(d: Desk, ws: seq<World>, ls: seq<Label>, o: Outside, sid: u32, rank: nat): bytes
    requires |ws| == |ls| + 1 && Inward(ls)
    decreases |ls|
  {
    if ls == [] || !Waits(d, sid, rank) then []
    else AcceptedFrom(ws[0], ls[0], sid) + Taken(After(d, ls[0], o), ws[1..], ls[1..], o, sid, rank)
  }

  /** What the peer sends on the stream while its caller waits. */
  function Offered(d: Desk, ls: seq<Label>, o: Outside, sid: u32, rank: nat): bytes
    requires Inward(ls)
    decreases |ls|
  {
    if ls == [] || !Waits(d, sid, rank) then []
    else PayloadOf(ls[0], sid) + Offered(After(d, ls[0], o), ls[1..], o, sid, rank)
  }

  /** Some frame for the stream is dropped while its caller waits. */
  predicate Loses(d: Desk, ws: seq<World>, ls: seq<Label>, o: Outside, sid: u32, rank: nat)
    requires |ws| == |ls| + 1 && Inward(ls)
    decreases |ls|
  {
    ls != [] && Waits(d, sid, rank)
    && (Drops(ws[0], ls[0], sid) || Loses(After(d, ls[0], o), ws[1..], ls[1..], o, sid, rank))
  }

  lemma {:induction false} OnEventsAppend(d: Desk, a: seq<H2Event>, b: seq<H2Event>, hash: HashOrder,
                                          status: HeaderList -> nat)
    ensures OnEvents(d, a + b, hash, status) == OnEvents(OnEvents(d, a, hash, status), b, hash, status)
    decreases |a|
  {
    if a == [] {
      assert a + b == b;
    } else {
      assert (a + b)[1..] == a[1..] + b;
      OnEventsAppend(OnEvent(d, a[0], hash, status), a[1..], b, hash, status);
    }
  }

  lemma NothingTaken(d: Desk, ws: seq<World>, ls: seq<Label>, o: Outside, sid: u32, rank: nat)
    requires |ws| == |ls| + 1 && Inward(ls) && OnlyOn(d, sid, rank) && (ls == [] || !Waits(d, sid, rank))
    ensures Chunks(OnEvents(d, EventsOf(ls), o.hash, o.status).log, rank)
            == Chunks(d.log, rank) + Taken(d, ws, ls, o, sid, rank)
  {
    EventsChunks(d, EventsOf(ls), o.hash, o.status, sid, rank);
    assert Chunks(d.log, rank) + [] == Chunks(d.log, rank);
  }

  /** A read brings the caller exactly what the engine took while it waited. */
  lemma {:induction false} ReadTaken(d: Desk, w: World, ws: seq<World>, ls: seq<Label>, o: Outside, sid: u32, rank: nat)
    requires Handles(w, ws, ls) && OnlyOn(d, sid, rank)
    ensures Chunks(OnEvents(d, EventsOf(ls), o.hash, o.status).log, rank)
            == Chunks(d.log, rank) + Taken(d, ws, ls, o, sid, rank)
    decreases |ls|
  {
    if ls == [] || !Waits(d, sid, rank) {
      NothingTaken(d, ws, ls, o, sid, rank);
    } else {
      var d1 := After(d, ls[0], o);
      FrameChunks(ws[0], ls[0], ws[1], d, o, sid, rank);
      ReadTaken(d1, ws[1], ws[1..], ls[1..], o, sid, rank);
      OnEventsAppend(d, ls[0].output.events, EventsOf(ls[1..]), o.hash, o.status);
      Assoc(Chunks(d.log, rank), AcceptedFrom(ws[0], ls[0], sid), Taken(d1, ws[1..], ls[1..], o, sid, rank));
    }
  }

  /** Shorter, or the same. */
  predicate Within(a: bytes, b: bytes) {
    |a| < |b| || a == b
  }

  lemma SameParts(a: bytes, a': bytes, b: bytes, b': bytes)
    requires Within(a, a') && Within(b, b')
    ensures Within(a + b, a' + b') && (a + b == a' + b' <==> a == a' && b == b')
  {
    if a + b == a' + b' {
      assert |a + b| == |a' + b'|;
    }
  }

  lemma {:induction false} TakenIff(d: Desk, ws: seq<World>, ls: seq<Label>, o: Outside, sid: u32, rank: nat)
    requires |ws| == |ls| + 1 && Inward(ls)
    ensures Within(Taken(d, ws, ls, o, sid, rank), Offered(d, ls, o, sid, rank))
    ensures Taken(d, ws, ls, o, sid, rank) == Offered(d, ls, o, sid, rank) <==> !Loses(d, ws, ls, o, sid, rank)
    decreases |ls|
  {
    if ls != [] && Waits(d, sid, rank) {
      var d1 := After(d, ls[0], o);
      TakenUnlessDropped(ws[0], ls[0], sid);
      TakenIff(d1, ws[1..], ls[1..], o, sid, rank);
      SameParts(AcceptedFrom(ws[0], ls[0], sid), PayloadOf(ls[0], sid),
                Taken(d1, ws[1..], ls[1..], o, sid, rank), Offered(d1, ls[1..], o, sid, rank));
    }
  }

  // ---- Whole runs ---------------------------------------------------------------------------------

  /** A read whose events the driver goes on to report. */
  predicate Reports(a: Arm) {
    a.OnRead? && a.wrote && |a.ws| == |a.ls| + 1 && Inward(a.ls)
  }

  function TakenFor(t: Trace, sid: u32, rank: nat): bytes {
    match t
    case Begun(_, _) => []
    case Then(before, a, o, _) =>
      TakenFor(before, sid, rank) + if Reports(a) then Taken(before.s.desk, a.ws, a.ls, o, sid, rank) else []
  }

  /** All the body bytes the peer sent on the stream while its caller waited. */
  function OfferedTo(t: Trace, sid: u32, rank: nat): bytes {
    match t
    case Begun(_, _) => []
    case Then(before, a, o, _) =>
      OfferedTo(before, sid, rank) + if Reports(a) then Offered(before.s.desk, a.ls, o, sid, rank) else []
  }

  predicate LostFor(t: Trace, sid: u32, rank: nat) {
    match t
    case Begun(_, _) => false
    case Then(before, a, o, _) =>
      LostFor(before, sid, rank) || (Reports(a) && Loses(before.s.desk, a.ws, a.ls, o, sid, rank))
  }

  lemma {:induction false} TakenForIff(t: Trace, sid: u32, rank: nat)
    ensures Within(TakenFor(t, sid, rank), OfferedTo(t, sid, rank))
    ensures TakenFor(t, sid, rank) == OfferedTo(t, sid, rank) <==> !LostFor(t, sid, rank)
  {
    match t
    case Begun(_, _) =>
    case Then(before, a, o, _) =>
      TakenForIff(before, sid, rank);
      if Reports(a) {
        TakenIff(before.s.desk, a.ws, a.ls, o, sid, rank);
        SameParts(TakenFor(before, sid, rank), OfferedTo(before, sid, rank),
                  Taken(before.s.desk, a.ws, a.ls, o, sid, rank), Offered(before.s.desk, a.ls, o, sid, rank));
      } else {
        SameParts(TakenFor(before, sid, rank), OfferedTo(before, sid, rank), [], []);
      }
  }

  /** If the request was opened at all, it was on this stream. */
  predicate OpenedOn(d: Desk, sid: u32, rank: nat) {
    forall i :: 0 <= i < |d.openings| && d.openings[i].rank == rank ==> d.openings[i].sid == sid
  }

  lemma OpenedOnly(d: Desk, sid: u32, rank: nat)
    requires PendingOk(d) && OpenedOn(d, sid, rank)
    ensures OnlyOn(d, sid, rank)
  {
  }

  lemma SilentChunks(s: System, a: Arm, o: Outside, s': System, sid: u32, rank: nat)
    requires SysInv(s) && SysNext(s, a, o, s') && Silently(a)
    ensures Chunks(s'.desk.log, rank) == Chunks(s.desk.log, rank) && s.desk.openings <= s'.desk.openings
  {
    SilentDelivers(s, a, o, s', sid, rank);
    assert Chunks(s.desk.log, rank) + [] == Chunks(s.desk.log, rank);
  }

  /** A failed decode ends the read with an event nobody is told of. */
  lemma BadIsQuiet(d: Desk, ls: seq<Label>, bad: Option<CodecError>, o: Outside)
    requires Inward(ls)
    ensures OnEvents(d, Events(ls, bad), o.hash, o.status) == OnEvents(d, EventsOf(ls), o.hash, o.status)
  {
    var tail := if bad.Some? then [EngineError(BadFrame(bad.value))] else [];
    OnEventsAppend(d, EventsOf(ls), tail, o.hash, o.status);
    if bad.Some? {
      assert tail[1..] == [];
    }
  }

  lemma ReadChunks(s: System, ws: seq<World>, ls: seq<Label>, bad: Option<CodecError>, o: Outside, s': System,
                   sid: u32, rank: nat)
    requires SysInv(s) && SysNext(s, OnRead(ws, ls, bad, true), o, s') && OnlyOn(s.desk, sid, rank)
    ensures Chunks(s'.desk.log, rank) == Chunks(s.desk.log, rank) + Taken(s.desk, ws, ls, o, sid, rank)
  {
    var d := OnEvents(s.desk, Events(ls, bad), o.hash, o.status);
    BadIsQuiet(s.desk, ls, bad, o);
    ReadTaken(s.desk, s.world, ws, ls, o, sid, rank);
    AfterArmChunks(Settle(s.(world := ws[|ls|]), d), o, rank);
  }

  lemma StepChunks(s: System, a: Arm, o: Outside, s': System, sid: u32, rank: nat)
    requires SysInv(s) && SysNext(s, a, o, s') && OnlyOn(s.desk, sid, rank)
    ensures Chunks(s'.desk.log, rank)
            == Chunks(s.desk.log, rank) + if Reports(a) then Taken(s.desk, a.ws, a.ls, o, sid, rank) else []
  {
    if Silently(a) {
      SilentChunks(s, a, o, s', sid, rank);
      assert Chunks(s.desk.log, rank) + [] == Chunks(s.desk.log, rank);
    } else {
      ReadChunks(s, a.ws, a.ls, a.bad, o, s', sid, rank);
    }
  }

  lemma OpenedEarlier(t: Trace, sid: u32, rank: nat)
    requires SysRun(t) && t.Then? && OpenedOn(t.s.desk, sid, rank)
    ensures SysInv(t.before.s) && OpenedOn(t.before.s.desk, sid, rank) && OnlyOn(t.before.s.desk, sid, rank)
  {
    SysRunInv(t.before);
    GrowsOpenings(t.before.s, t.arm, t.outside, t.s, rank);
    assert forall i :: 0 <= i < |t.before.s.desk.openings| ==> t.before.s.desk.openings[i] == t.s.desk.openings[i];
    DeskFacts(t.before.s);
    OpenedOnly(t.before.s.desk, sid, rank);
  }

  /** Over every run, and for finished callers too: the chunks sent are what the engine took on the
      stream while the caller waited. */
  lemma {:induction false} ChunksAreTaken(t: Trace, sid: u32, rank: nat)
    requires SysRun(t) && OpenedOn(t.s.desk, sid, rank)
    ensures Chunks(t.s.desk.log, rank) == TakenFor(t, sid, rank)
  {
    if t.Begun? {
      BegunChunks(t.s, t.first, rank);
    } else {
      OpenedEarlier(t, sid, rank);
      ChunksAreTaken(t.before, sid, rank);
      StepChunks(t.before.s, t.arm, t.outside, t.s, sid, rank);
    }
  }

  /** A body arrives whole, over every run and for waiting and finished callers alike: the chunks sent are
      all the DATA payloads the peer sent on the stream while the caller waited, exactly when none of
      those frames met a branch that drops it. */
  lemma BodyWholeIff(t: Trace, sid: u32, rank: nat)
    requires SysRun(t) && OpenedOn(t.s.desk, sid, rank)
    ensures Chunks(t.s.desk.log, rank) == OfferedTo(t, sid, rank) <==> !LostFor(t, sid, rank)
    ensures |Chunks(t.s.desk.log, rank)| < |OfferedTo(t, sid, rank)| <==> LostFor(t, sid, rank)
  {
    ChunksAreTaken(t, sid, rank);
    TakenForIff(t, sid, rank);
  }
}
