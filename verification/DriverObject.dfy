/** The state the driver's loop mutates, and its helpers as the loops of lkh2/src/driver.rs, each
    proved against the desk function it carries out. Reply channels are the ghost log. */
module DriverObject {
  import opened Wire
  import opened Engine
  import opened EngineLaws
  import opened EngineObject
  import opened RequestDesk
  import opened Driver

  lemma {:induction false} EachPush(d: Desk, order: seq<u32>, sid: u32, f: Ending)
    ensures Each(d, order + [sid], f) == f(Each(d, order, f), sid)
    decreases |order|
  {
    if order == [] {
      assert order + [sid] == [sid] && [sid][1..] == [];
    } else {
      assert (order + [sid])[1..] == order[1..] + [sid];
      EachPush(f(d, order[0]), order[1..], sid, f);
    }
  }

  /** One more stream drained. */
  lemma DrainStep(start: Desk, order: seq<u32>, d: Desk, sid: u32, fault: Fault)
    requires d == NotifyAll(start, order, fault) && sid in d.pending
    ensures FailStream(d, sid, fault) == NotifyAll(start, order + [sid], fault)
    ensures FailStream(d, sid, fault).pending.Keys == d.pending.Keys - {sid}
    ensures (set x | x in order + [sid]) == (set x | x in order) + {sid}
  {
    EachPush(start, order, sid, Failing(fault));
    FailPending(d, sid, fault);
  }

  class DriverState {
    const engine: H2Engine
    var waiting: seq<Waiting>
    var pending: map<u32, Pending>
    ghost var arrivals: nat
    ghost var openings: seq<Opening>
    ghost var log: seq<Delivery>
    ghost var released: seq<nat>

    constructor (e: H2Engine)
      ensures engine == e && State() == EMPTY_DESK
    {
      engine := e;
      waiting, pending, arrivals, openings, log, released := [], map[], 0, [], [], [];
    }

    ghost function State(): Desk
      reads this
    {
      Desk(waiting, pending, arrivals, openings, log, released)
    }

    /** `remove_waiting_request`: the first request with the id leaves the queue, its caller's channels are
        dropped and its permit is given back; without one nothing changes. */
    method RemoveWaitingRequest(id: nat) returns (found: bool)
      modifies this
      ensures State() == RemoveWaiting(old(State()), id)
      ensures found ==>
                exists i :: 0 <= i < |old(waiting)| && old(waiting)[i].id == id
                            && (forall j :: 0 <= j < i ==> old(waiting)[j].id != id)
                            && waiting == old(waiting)[..i] + old(waiting)[i + 1..]
                            && released == old(released) + [id] && log == old(log) + [End(old(waiting)[i].rank)]
                            && pending == old(pending) && openings == old(openings)
      ensures !found ==> State() == old(State()) && forall i :: 0 <= i < |waiting| ==> waiting[i].id != id
    {
      var i := 0;
      while i < |waiting| && waiting[i].id != id
        invariant 0 <= i <= |waiting|
        invariant forall j :: 0 <= j < i ==> waiting[j].id != id
        invariant Position(waiting, id) == i + Position(waiting[i..], id)
      {
        i := i + 1;
      }
      if i == |waiting| {
        return false;
      }
      log := log + [End(waiting[i].rank)];
      released := released + [waiting[i].id];
      waiting := waiting[..i] + waiting[i + 1..];
      return true;
    }

    /** `notify_waiting_error`. */
    method NotifyWaitingError(fault: Fault)
      modifies this
      ensures State() == NotifyWaiting(old(State()), fault)
    {
      while waiting != []
        invariant NotifyWaiting(State(), fault) == NotifyWaiting(old(State()), fault)
        decreases |waiting|
      {
        log := log + Regret(waiting[0].rank, fault);
        released := released + [waiting[0].id];
        assert Without(waiting, 0) == waiting[1..];
        waiting := waiting[1..];
      }
    }

    /** Takes a stream out of the map and tells its caller of the fault. */
    method FailOne(sid: u32, fault: Fault)
      requires sid in pending
      modifies this
      ensures State() == FailStream(old(State()), sid, fault)
    {
      var p := pending[sid];
      if p.headers {
        log := log + [Head(p.rank, HeadFailed(fault))];
      }
      log := log + [Body(p.rank, BodyFailed(fault))] + [End(p.rank)];
      assert pending[sid := p.(headers := false)] - {sid} == pending - {sid};
      pending := pending - {sid};
    }

    /** `notify_all_error`: drains the map in some order. */
    method NotifyAllError(fault: Fault) returns (ghost order: seq<u32>)
      modifies this
      ensures State() == NotifyAll(old(State()), order, fault)
      ensures (set sid | sid in order) == old(pending).Keys
    {
      order := [];
      ghost var start := State();
      while pending != map[]
        invariant State() == NotifyAll(start, order, fault)
        invariant pending.Keys + (set sid | sid in order) == start.pending.Keys
        decreases |pending|
      {
        var sid :| sid in pending;
        DrainStep(start, order, State(), sid, fault);
        FailOne(sid, fault);
        order := order + [sid];
      }
    }

    method RejectOne(sid: u32, fault: Fault)
      requires sid in pending
      modifies this
      ensures State() == RejectStream(old(State()), sid, fault)
    {
      var p := pending[sid];
      if p.headers {
        log := log + [Head(p.rank, HeadFailed(fault))];
      }
      log := log + [End(p.rank)];
      assert pending[sid := p.(headers := false)] - {sid} == pending - {sid};
      pending := pending - {sid};
    }

    /** The graceful GOAWAY of `handle_event`. */
    method RejectStale(last: u32) returns (ghost order: seq<u32>)
      modifies this
      ensures State() == RejectAbove(old(State()), order, last)
      ensures (set sid | sid in order) == old(pending).Keys
    {
      var todo := pending.Keys;
      order := [];
      while todo != {}
        invariant todo <= pending.Keys
        invariant State() == RejectAbove(old(State()), order, last)
        invariant (set sid | sid in order) == old(pending).Keys - todo
        invariant todo <= old(pending).Keys
        decreases |todo|
      {
        var sid :| sid in todo;
        EachPush(old(State()), order, sid, Rejecting(last));
        if sid > last {
          RejectOne(sid, GoAwayFault);
        }
        assert (set x | x in order + [sid]) == (set x | x in order) + {sid};
        todo, order := todo - {sid}, order + [sid];
      }
    }

    /** `handle_event`. */
    method HandleEvent(ev: H2Event, status: HeaderList -> nat) returns (ghost order: seq<u32>)
      modifies this
      ensures State() == OnEvent(old(State()), ev, _ => order, status)
      ensures ev.GoAwayReceived? ==> (set sid | sid in order) == old(pending).Keys
    {
      order := [];
      match ev
      case ResponseHeaders(sid, headers, endStream) =>
        if sid in pending && !Interim(status(headers)) {
          var p := pending[sid];
          if p.headers {
            pending := pending[sid := p.(headers := false)];
            log := log + [Head(p.rank, Response(status(headers), headers))];
          }
          if endStream {
            log := log + [End(p.rank)];
            pending := pending - {sid};
          }
        }
      case ResponseData(sid, data, endStream) =>
        if sid in pending {
          var p := pending[sid];
          if data != [] {
            log := log + [Body(p.rank, Chunk(data))];
          }
          if endStream {
            log := log + [End(p.rank)];
            pending := pending - {sid};
          }
        }
      case StreamReset(sid, code) =>
        if sid in pending {
          FailOne(sid, ResetFault(code));
        }
      case GoAwayReceived(last, code, _) =>
        if code != 0 {
          order := NotifyAllError(GoAwayFault);
        } else {
          order := RejectStale(last);
        }
      case _ =>
    }

    /** A queued request nobody waits for any more. */
    method SkipHead()
      requires waiting != []
      modifies this
      ensures State() == Discard(old(State()), 0)
    {
      log := log + [End(waiting[0].rank)];
      released := released + [waiting[0].id];
      assert Without(waiting, 0) == waiting[1..];
      waiting := waiting[1..];
    }

    method OpenHeadOfQueue() returns (sid: u32)
      requires waiting != [] && engine.Valid()
      modifies this, engine, engine.state, engine.continuation
      ensures sid == old(engine.state.nextStreamId) && State() == OpenHead(old(State()), sid)
      ensures engine.Valid() && engine.State() == SendRequest(old(engine.State()), old(waiting)[0].request).0
    {
      var next := waiting[0];
      waiting, released := waiting[1..], released + [next.id];
      var frames;
      sid, frames := engine.Request(next.request);
      openings := openings + [Opening(next.rank, sid)];
      pending := pending[sid := Pending(next.rank, true)];
    }

    /** `dispatch_waiting_requests`; `w` is the engine with everything observed of it so far. */
    method DispatchWaiting(o: Outside, ghost w: World) returns (ok: bool, ghost w': World)
      requires engine.Valid() && w.engine == engine.State()
      modifies this, engine, engine.state, engine.continuation
      ensures (w', State(), ok) == DispatchAll(w, old(State()), o)
      ensures engine.Valid() && w'.engine == engine.State()
    {
      w' := w;
      if engine.state.error.Some? {
        NotifyWaitingError(GoAwayFault);
        return true, w';
      }
      ghost var goal := Dispatch(w, State(), o);
      while true
        invariant engine.Valid() && w'.engine == engine.State()
        invariant goal == Dispatch(w', State(), o)
        decreases |waiting|
      {
        var room := engine.state.CanOpen();
        if !room || waiting == [] {
          return true, w';
        }
        if o.gone(waiting[0].id) {
          SkipHead();
          continue;
        }
        ghost var request := waiting[0].request;
        var sid := OpenHeadOfQueue();
        w' := AfterAsk(w', request);
        if !o.writes(sid) {
          FailOne(sid, IoFault);
          return false, w';
        }
      }
    }
  }
}
