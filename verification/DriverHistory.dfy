/** What the peer's SETTINGS and GOAWAY frames make the driver do, from the frame itself. */
module DriverHistory {
  import opened Wire
  import opened Frames
  import opened Codec
  import opened Streams
  import opened Connection
  import opened Policy
  import opened Engine
  import opened EngineLaws
  import opened EngineTheorems
  import opened EngineObject
  import opened History
  import opened RequestDesk
  import opened Driver
  import opened DriverRuns
  import opened DriverTheorems
  import opened ResponseBodies
  import opened WholeBodies
  import opened WireReplies

  // ---- The limit on streams -----------------------------------------------------------------------

  /** If the last MAX_CONCURRENT_STREAMS the peer sent is n, a dispatch that opens a stream ends with at most n
      streams on which either side may still send; without one there is no limit. */
  lemma LimitHonoured(w: World, d: Desk, o: Outside, n: u32)
    requires Sound(w, d) && Dispatch(w, d, o).0.opens <= MAX_OPENS && LastLegal(ParamsIn(w.heard), 3) == Some(n)
    requires Dispatch(w, d, o).0.opens > w.opens
    ensures |Active(Dispatch(w, d, o).0)| <= n
  {
    PeerSettings(w);
    DispatchWithinLimit(w, d, o);
  }

  lemma NoLimitUnlessSent(w: World)
    requires Reachable(w) && LastLegal(ParamsIn(w.heard), 3).None?
    ensures CanOpenStream(w.engine.send.conn)
  {
    PeerSettings(w);
  }

  // ---- GOAWAY -------------------------------------------------------------------------------------

  predicate HeardFailure(w: World) {
    exists i :: 0 <= i < |w.heard| && w.heard[i].frame.GoAway? && w.heard[i].frame.errorCode != 0
  }

  lemma FailedIfHeard(s: System)
    requires SysInv(s)
    ensures Failed(s) <==> HeardFailure(s.world)
  {
    FailedIff(s.world);
  }

  /** Over every run: once a GOAWAY with a non-zero code has come in, no stream is opened and nothing stays
      queued; and as long as none has, the driver does not treat the connection as failed. */
  lemma NothingOpensAfterGoAway(u: Trace, t: Trace)
    requires SysRun(u) && SysRun(t) && Earlier(u, t)
    ensures Failed(u.s) <==> HeardFailure(u.s.world)
    ensures HeardFailure(u.s.world) ==> t.s.desk.openings == u.s.desk.openings && t.s.desk.waiting == []
  {
    SysRunInv(u);
    FailedIfHeard(u.s);
    if HeardFailure(u.s.world) {
      NothingOpensAfterError(u, t);
    }
  }

  lemma EventLeaves(d: Desk, last: u32, code: u32, debugData: bytes, o: Outside)
    requires ValidOutside(o)
    ensures OnEvent(d, GoAwayReceived(last, code, debugData), o.hash, o.status).pending
            == if code != 0 then map[] else map sid | sid in d.pending && sid <= last :: d.pending[sid]
  {
    var order := o.hash(d.pending);
    assert forall sid :: sid in order <==> sid in d.pending by {
      assert (set sid | sid in order) == d.pending.Keys;
    }
    NotifyAllKeeps(d, order, GoAwayFault);
    RejectAboveKeeps(d, order, last);
  }

  /** What a GOAWAY frame leaves of the streams callers wait for. */
  lemma GoAwayLeaves(w: World, l: Label, w': World, d: Desk, o: Outside)
    requires Next(w, l, w') && l.Receive? && l.frame.GoAway? && ValidOutside(o)
    ensures After(d, l, o).pending
            == if l.frame.errorCode != 0 then map[]
               else map sid | sid in d.pending && sid <= l.frame.lastStreamId :: d.pending[sid]
  {
    OnlyEvent(d, l.output.events, o.hash, o.status);
    EventLeaves(d, l.frame.lastStreamId, l.frame.errorCode, l.frame.debugData, o);
  }

  /** A dispatch that succeeds leaves the streams already waited for alone. */
  lemma {:induction false} DispatchKeepsPending(w: World, d: Desk, o: Outside, sid: u32)
    requires Sound(w, d) && Dispatch(w, d, o).0.opens <= MAX_OPENS && Dispatch(w, d, o).2 && sid in d.pending
    ensures sid in Dispatch(w, d, o).1.pending && Dispatch(w, d, o).1.pending[sid] == d.pending[sid]
    decreases |d.waiting|
  {
    if d.waiting != [] && CanOpenStream(w.engine.send.conn) {
      if o.gone(d.waiting[0].id) {
        DiscardSound(w, d);
        DispatchKeepsPending(w, Discard(d, 0), o, sid);
      } else {
        var on := w.engine.send.conn.nextStreamId;
        if o.writes(on) {
          OpenSound(w, d, on);
          DispatchKeepsPending(AfterAsk(w, d.waiting[0].request), OpenHead(d, on), o, sid);
        }
      }
    }
  }

  lemma ArmKeepsPending(s: System, o: Outside, sid: u32)
    requires Sound(s.world, s.desk) && AfterArm(s, o).world.opens <= MAX_OPENS && AfterArm(s, o).running && sid in s.desk.pending
    ensures sid in AfterArm(s, o).desk.pending && AfterArm(s, o).desk.pending[sid] == s.desk.pending[sid]
  {
    if s.world.engine.send.conn.error.Some? {
      WaitingShrinks(s.desk, GoAwayFault);
    } else {
      DispatchKeepsPending(s.world, s.desk, o, sid);
    }
  }

  /** After a turn a stream that was handed out before is waited for exactly if it was at its start. */
  lemma ArmPending(s: System, o: Outside, sid: u32, rank: nat)
    requires Sound(s.world, s.desk) && AfterArm(s, o).world.opens <= MAX_OPENS && AfterArm(s, o).running
    requires sid <= 2 * |s.desk.openings|
    ensures Waits(AfterArm(s, o).desk, sid, rank) <==> Waits(s.desk, sid, rank)
  {
    AfterArmGrown(s, o);
    if sid in s.desk.pending {
      ArmKeepsPending(s, o, sid);
    }
  }

  lemma OneLabel(d: Desk, ls: seq<Label>, o: Outside)
    requires |ls| == 1 && ls[0].Receive?
    ensures OnEvents(d, Events(ls, None), o.hash, o.status) == After(d, ls[0], o)
  {
    assert ls[1..] == [] && EventsOf([]) == [];
    assert EventsOf(ls) == ls[0].output.events;
    assert Events(ls, None) == ls[0].output.events;
  }

  lemma ReadOneSound(s: System, ws: seq<World>, ls: seq<Label>, o: Outside)
    requires SysInv(s) && Handles(s.world, ws, ls) && |ls| == 1
    ensures Sound(ws[1], After(s.desk, ls[0], o)) && After(s.desk, ls[0], o).openings == s.desk.openings
    ensures OnEvents(s.desk, Events(ls, None), o.hash, o.status) == After(s.desk, ls[0], o)
  {
    HandlesReaches(s.world, ws, ls, 1);
    OneLabel(s.desk, ls, o);
    EventsSound(s.world, s.desk, Events(ls, None), o, ws[1]);
    EventsKeepOpenings(s.desk, Events(ls, None), o);
  }

  lemma WaitsBelow(s: System, sid: u32, rank: nat)
    requires SysInv(s) && Waits(s.desk, sid, rank)
    ensures sid <= 2 * |s.desk.openings|
  {
    DeskFacts(s);
    OpenedOnce(s.desk, sid, rank);
  }

  lemma ReadOne(s: System, ws: seq<World>, ls: seq<Label>, o: Outside, s': System, sid: u32, rank: nat)
    requires SysInv(s) && SysNext(s, OnRead(ws, ls, None, true), o, s') && |ls| == 1 && s'.running
    requires sid <= 2 * |s.desk.openings|
    ensures Waits(s'.desk, sid, rank) <==> Waits(After(s.desk, ls[0], o), sid, rank)
  {
    ReadOneSound(s, ws, ls, o);
    ArmPending(Settle(s.(world := ws[1]), After(s.desk, ls[0], o)), o, sid, rank);
  }

  /** A read that brings a GOAWAY: with code zero exactly the streams above its last id are no longer waited for,
      with another code none is. */
  lemma GoAwayRead(s: System, ws: seq<World>, ls: seq<Label>, o: Outside, s': System, sid: u32, rank: nat)
    requires SysInv(s) && SysNext(s, OnRead(ws, ls, None, true), o, s') && |ls| == 1 && ls[0].frame.GoAway?
    requires Waits(s.desk, sid, rank) && s'.running
    ensures Waits(s'.desk, sid, rank) <==> ls[0].frame.errorCode == 0 && sid <= ls[0].frame.lastStreamId
  {
    WaitsBelow(s, sid, rank);
    ReadOne(s, ws, ls, o, s', sid, rank);
    GoAwayLeaves(ws[0], ls[0], ws[1], s.desk, o);
  }
}
