/** How requests end without a response: cancelled in the queue, told of a failure, or given up with the
    loop. The laws hold in every step of every run. */
module Endings {
  import opened Wire
  import opened Frames
  import opened Codec
  import opened Streams
  import opened Connection
  import opened Policy
  import opened Engine
  import opened EngineLaws
  import opened EngineTheorems
  import opened EngineObject
  import opened RequestDesk
  import opened Replies
  import opened Driver
  import opened DriverRuns
  import opened DriverTheorems

  // ---- The log only grows -------------------------------------------------------------------------

  lemma {:induction false} EachGrows(d: Desk, order: seq<u32>, fault: Fault)
    ensures d.log <= Each(d, order, Failing(fault)).log
    decreases |order|
  {
    if order != [] {
      if order[0] in d.pending {
        EndLog(d, order[0], fault, true);
      }
      EachGrows(Failing(fault)(d, order[0]), order[1..], fault);
    }
  }

  lemma {:induction false} NotifyWaitingGrows(d: Desk, fault: Fault)
    ensures d.log <= NotifyWaiting(d, fault).log
    decreases |d.waiting|
  {
    if d.waiting != [] {
      NotifyWaitingGrows(Leave(d, 0, Regret(d.waiting[0].rank, fault)), fault);
    }
  }

  lemma NotifyBothGrows(d: Desk, o: Outside, fault: Fault)
    ensures d.log <= NotifyBoth(d, o, fault).log
  {
    EachGrows(d, o.hash(d.pending), fault);
    NotifyWaitingGrows(NotifyAll(d, o.hash(d.pending), fault), fault);
  }

  lemma {:induction false} DispatchGrows(w: World, d: Desk, o: Outside)
    requires ValidEngine(w.engine)
    ensures d.log <= Dispatch(w, d, o).1.log
    decreases |d.waiting|
  {
    if d.waiting != [] && CanOpenStream(w.engine.send.conn) {
      if o.gone(d.waiting[0].id) {
        DispatchGrows(w, Discard(d, 0), o);
      } else {
        var sid := w.engine.send.conn.nextStreamId;
        AskFixed(w.engine, d.waiting[0].request);
        if o.writes(sid) {
          DispatchGrows(AfterAsk(w, d.waiting[0].request), OpenHead(d, sid), o);
        } else {
          EndLog(OpenHead(d, sid), sid, IoFault, true);
        }
      }
    }
  }

  lemma ArmGrows(s: System, o: Outside)
    requires ValidEngine(s.world.engine)
    ensures s.desk.log <= AfterArm(s, o).desk.log
  {
    var (w, d, ok) := DispatchAll(s.world, s.desk, o);
    if s.world.engine.send.conn.error.Some? {
      NotifyWaitingGrows(s.desk, GoAwayFault);
    } else {
      DispatchGrows(s.world, s.desk, o);
    }
    if !ok {
      NotifyBothGrows(d, o, IoFault);
    }
  }

  /** Once a caller has seen the end, nothing is added to what it was told. */
  lemma NothingAfterEnd(log: seq<Delivery>, log': seq<Delivery>, rank: nat)
    requires LogOk(log') && log <= log' && Ended(log, rank)
    ensures Mine(log', rank) == Mine(log, rank)
  {
    var rest := log'[|log|..];
    assert log' == log + rest;
    var i :| 0 <= i < |log| && log[i] == End(rank);
    assert log'[i] == End(rank);
    forall j | 0 <= j < |rest|
      ensures rest[j].who != rank
    {
      assert rest[j] == log'[|log| + j];
    }
    MineAppend(log, rest, rank);
    MineNone(rest, rank);
  }

  // ---- Cancelling ---------------------------------------------------------------------------------

  /** The ids in the queue are distinct. */
  lemma {:induction false} IdBagTwice(ws: seq<Waiting>, i: nat, j: nat)
    requires i < j < |ws| && ws[i].id == ws[j].id
    ensures IdBag(ws)[ws[i].id] >= 2
    decreases i
  {
    if i == 0 {
      IdBagWithout(ws[1..], j - 1);
    } else {
      IdBagTwice(ws[1..], i - 1, j - 1);
    }
  }

  lemma QueuedOnce(s: System, i: nat, j: nat)
    requires Permits(s) && i < |s.desk.waiting| && j < |s.desk.waiting| && s.desk.waiting[i].id == s.desk.waiting[j].id
    ensures i == j
  {
    var ws, id := s.desk.waiting, s.desk.waiting[i].id;
    var all := multiset(s.senders) + multiset(CommandIds(s.channel)) + multiset(s.returned) + Queued(s.desk);
    IssuedOnce(s.nextId, id);
    assert all[id] == Issued(s.nextId)[id];
    if i < j {
      IdBagTwice(ws, i, j);
    } else if j < i {
      IdBagTwice(ws, j, i);
    }
  }

  /** A cancel takes the one request with its id out of the queue, and nothing else. */
  lemma CancelRemoves(s: System, id: nat, i: nat)
    requires Permits(s) && i < |s.desk.waiting| && s.desk.waiting[i].id == id
    ensures var d, d' := s.desk, RemoveWaiting(s.desk, id);
            d' == d.(waiting := d.waiting[..i] + d.waiting[i + 1..], released := d.released + [id],
                     log := d.log + [End(d.waiting[i].rank)])
  {
    QueuedOnce(s, i, Position(s.desk.waiting, id));
  }

  lemma CancelMisses(d: Desk, id: nat)
    requires forall i :: 0 <= i < |d.waiting| ==> d.waiting[i].id != id
    ensures RemoveWaiting(d, id) == d
  {
  }

  /** A dispatch that succeeds ends only callers that have gone. */
  lemma {:induction false} DispatchEnds(w: World, d: Desk, o: Outside, rank: nat)
    requires ValidEngine(w.engine) && Dispatch(w, d, o).2 && !Ended(d.log, rank)
    requires forall i :: 0 <= i < |d.waiting| && d.waiting[i].rank == rank ==> !o.gone(d.waiting[i].id)
    ensures !Ended(Dispatch(w, d, o).1.log, rank)
    decreases |d.waiting|
  {
    if d.waiting != [] && CanOpenStream(w.engine.send.conn) {
      if o.gone(d.waiting[0].id) {
        DispatchEnds(w, Discard(d, 0), o, rank);
      } else {
        var sid := w.engine.send.conn.nextStreamId;
        AskFixed(w.engine, d.waiting[0].request);
        if o.writes(sid) {
          DispatchEnds(AfterAsk(w, d.waiting[0].request), OpenHead(d, sid), o, rank);
        }
      }
    }
  }

  predicate Unopened(d: Desk, rank: nat) {
    && (forall i :: 0 <= i < |d.waiting| ==> d.waiting[i].rank != rank)
    && forall i :: 0 <= i < |d.openings| ==> d.openings[i].rank != rank
  }

  /** Only queued requests get streams. */
  lemma {:induction false} DispatchOpens(w: World, d: Desk, o: Outside, rank: nat)
    requires ValidEngine(w.engine) && Unopened(d, rank)
    ensures Unopened(Dispatch(w, d, o).1, rank)
    decreases |d.waiting|
  {
    if d.waiting != [] && CanOpenStream(w.engine.send.conn) {
      if o.gone(d.waiting[0].id) {
        DispatchOpens(w, Discard(d, 0), o, rank);
      } else {
        var sid := w.engine.send.conn.nextStreamId;
        AskFixed(w.engine, d.waiting[0].request);
        if o.writes(sid) {
          DispatchOpens(AfterAsk(w, d.waiting[0].request), OpenHead(d, sid), o, rank);
        } else {
          FailPending(OpenHead(d, sid), sid, IoFault);
        }
      }
    }
  }

  lemma {:induction false} NotifyUnopened(d: Desk, fault: Fault, rank: nat)
    requires Unopened(d, rank)
    ensures Unopened(NotifyWaiting(d, fault), rank)
    decreases |d.waiting|
  {
    if d.waiting != [] {
      NotifyUnopened(Leave(d, 0, Regret(d.waiting[0].rank, fault)), fault, rank);
    }
  }

  lemma BothUnopened(d: Desk, o: Outside, fault: Fault, rank: nat)
    requires Unopened(d, rank)
    ensures Unopened(NotifyBoth(d, o, fault), rank)
  {
    NotifyAllKeeps(d, o.hash(d.pending), fault);
    NotifyUnopened(NotifyAll(d, o.hash(d.pending), fault), fault, rank);
  }

  lemma ArmUnopened(s: System, o: Outside, rank: nat)
    requires ValidEngine(s.world.engine) && Unopened(s.desk, rank)
    ensures Unopened(AfterArm(s, o).desk, rank)
  {
    var (w, d, ok) := DispatchAll(s.world, s.desk, o);
    if s.world.engine.send.conn.error.Some? {
      NotifyUnopened(s.desk, GoAwayFault, rank);
    } else {
      DispatchOpens(s.world, s.desk, o, rank);
    }
    if !ok {
      BothUnopened(d, o, IoFault, rank);
    }
  }

  function AfterCancel(s: System): System
    requires s.cancels != []
  {
    Settle(s, RemoveWaiting(s.desk, s.cancels[0])).(cancels := s.cancels[1..])
  }

  lemma QueuedFacts(s: System, i: nat)
    requires SysInv(s) && i < |s.desk.waiting|
    ensures Permits(s) && Silent(s.desk.log, s.desk.waiting[i].rank) && ValidEngine(s.world.engine)
    ensures s.world.engine.send.conn.error.None?
    ensures forall j :: 0 <= j < |s.desk.waiting| && j != i ==> s.desk.waiting[j].rank != s.desk.waiting[i].rank
    ensures forall j :: 0 <= j < |s.desk.openings| ==> s.desk.openings[j].rank != s.desk.waiting[i].rank
  {
  }

  lemma CancelledLog(log: seq<Delivery>, rank: nat)
    requires Silent(log, rank)
    ensures Mine(log + [End(rank)], rank) == [End(rank)] && Ended(log + [End(rank)], rank)
  {
    MineBlock(log, [End(rank)], rank, rank);
    MineNone(log, rank);
    assert (log + [End(rank)])[|log|] == End(rank);
  }

  lemma UnopenedWithout(d: Desk, d': Desk, i: nat)
    requires i < |d.waiting| && d'.waiting == d.waiting[..i] + d.waiting[i + 1..] && d'.openings == d.openings
    requires forall j :: 0 <= j < |d.waiting| && j != i ==> d.waiting[j].rank != d.waiting[i].rank
    requires forall j :: 0 <= j < |d.openings| ==> d.openings[j].rank != d.waiting[i].rank
    ensures Unopened(d', d.waiting[i].rank)
  {
    assert forall j :: 0 <= j < |d'.waiting| ==> d'.waiting[j] == d.waiting[if j < i then j else j + 1];
  }

  lemma DropOne(s: System, i: nat)
    requires SysInv(s) && s.cancels != [] && i < |s.desk.waiting| && s.desk.waiting[i].id == s.cancels[0]
    ensures var d, rank := AfterCancel(s).desk, s.desk.waiting[i].rank;
            Unopened(d, rank) && Ended(d.log, rank) && Mine(d.log, rank) == [End(rank)]
  {
    QueuedFacts(s, i);
    DropQueued(s, i);
  }

  lemma DropQueued(s: System, i: nat)
    requires Permits(s) && s.cancels != [] && i < |s.desk.waiting| && s.desk.waiting[i].id == s.cancels[0]
    requires Silent(s.desk.log, s.desk.waiting[i].rank)
    requires forall j :: 0 <= j < |s.desk.waiting| && j != i ==> s.desk.waiting[j].rank != s.desk.waiting[i].rank
    requires forall j :: 0 <= j < |s.desk.openings| ==> s.desk.openings[j].rank != s.desk.waiting[i].rank
    ensures var d, rank := AfterCancel(s).desk, s.desk.waiting[i].rank;
            Unopened(d, rank) && Ended(d.log, rank) && Mine(d.log, rank) == [End(rank)]
  {
    CancelRemoves(s, s.cancels[0], i);
    CancelledLog(s.desk.log, s.desk.waiting[i].rank);
    UnopenedWithout(s.desk, AfterCancel(s).desk, i);
  }

  lemma LogFacts(s: System)
    requires SysInv(s)
    ensures LogOk(s.desk.log)
  {
  }

  lemma StaysDropped(s: System, o: Outside, rank: nat)
    requires ValidEngine(s.world.engine) && Unopened(s.desk, rank) && Ended(s.desk.log, rank)
    requires LogOk(AfterArm(s, o).desk.log)
    ensures Unopened(AfterArm(s, o).desk, rank) && Mine(AfterArm(s, o).desk.log, rank) == Mine(s.desk.log, rank)
  {
    ArmUnopened(s, o, rank);
    ArmGrows(s, o);
    NothingAfterEnd(s.desk.log, AfterArm(s, o).desk.log, rank);
  }

  /** The cancelled caller is dropped without a word, and no stream is opened for it, then or later in the
      same turn. */
  lemma CancelledIsDropped(s: System, o: Outside, s': System, i: nat)
    requires SysInv(s) && SysNext(s, OnCancel, o, s')
    requires i < |s.desk.waiting| && s.desk.waiting[i].id == s.cancels[0]
    ensures Mine(s'.desk.log, s.desk.waiting[i].rank) == [End(s.desk.waiting[i].rank)]
    ensures Unopened(s'.desk, s.desk.waiting[i].rank)
  {
    StepKeeps(s, OnCancel, o, s');
    LogFacts(s');
    DropOne(s, i);
    StaysDropped(AfterCancel(s), o, s.desk.waiting[i].rank);
  }

  /** And a cancel ends no other queued caller: in that turn only callers that have gone themselves, or
      all of them with the loop. */
  lemma OthersStay(s: System, o: Outside, s': System, i: nat)
    requires SysInv(s) && SysNext(s, OnCancel, o, s') && s'.running
    requires i < |s.desk.waiting| && s.desk.waiting[i].id != s.cancels[0] && !o.gone(s.desk.waiting[i].id)
    ensures !Ended(s'.desk.log, s.desk.waiting[i].rank)
  {
    var rank, s1 := s.desk.waiting[i].rank, AfterCancel(s);
    QueuedFacts(s, i);
    AfterRemoval(s, i);
    DispatchEnds(s1.world, s1.desk, o, rank);
  }

  lemma AfterRemoval(s: System, i: nat)
    requires Permits(s) && s.cancels != [] && i < |s.desk.waiting| && s.desk.waiting[i].id != s.cancels[0]
    requires Silent(s.desk.log, s.desk.waiting[i].rank)
    requires forall j :: 0 <= j < |s.desk.waiting| && j != i ==> s.desk.waiting[j].rank != s.desk.waiting[i].rank
    ensures var d := AfterCancel(s).desk;
            && !Ended(d.log, s.desk.waiting[i].rank)
            && forall j :: 0 <= j < |d.waiting| && d.waiting[j].rank == s.desk.waiting[i].rank ==>
                 d.waiting[j].id == s.desk.waiting[i].id
  {
    var k := Position(s.desk.waiting, s.cancels[0]);
    if k < |s.desk.waiting| {
      CancelRemoves(s, s.cancels[0], k);
    } else {
      CancelMisses(s.desk, s.cancels[0]);
    }
  }

  // ---- Failures -----------------------------------------------------------------------------------

  predicate RanksDistinct(ws: seq<Waiting>) {
    forall i, j :: 0 <= i < j < |ws| ==> ws[i].rank != ws[j].rank
  }

  predicate Among(ws: seq<Waiting>, rank: nat) {
    exists i :: 0 <= i < |ws| && ws[i].rank == rank
  }

  lemma AmongRest(ws: seq<Waiting>, rank: nat)
    requires ws != [] && RanksDistinct(ws)
    ensures RanksDistinct(ws[1..])
    ensures Among(ws[1..], rank) <==> Among(ws, rank) && rank != ws[0].rank
    ensures Among(ws, ws[0].rank)
  {
    if Among(ws, rank) && rank != ws[0].rank {
      var i :| 0 <= i < |ws| && ws[i].rank == rank;
      assert ws[1..][i - 1].rank == rank;
    }
    if Among(ws[1..], rank) {
      var i :| 0 <= i < |ws[1..]| && ws[1..][i].rank == rank;
      assert ws[i + 1].rank == rank;
    }
  }

  function Told(rank: nat, fault: Fault): seq<Delivery> {
    [Head(rank, HeadFailed(fault)), Body(rank, BodyFailed(fault)), End(rank)]
  }

  lemma TellFirst(log: seq<Delivery>, first: nat, fault: Fault, rank: nat)
    ensures Mine(log + Regret(first, fault), rank) == Mine(log, rank) + if first == rank then Told(rank, fault) else []
  {
    MineBlock(log, Regret(first, fault), first, rank);
  }

  function TellAll(ws: seq<Waiting>, fault: Fault, rank: nat): seq<Delivery> {
    if ws == [] then [] else (if ws[0].rank == rank then Told(rank, fault) else []) + TellAll(ws[1..], fault, rank)
  }

  lemma {:induction false} TellAllOnce(ws: seq<Waiting>, fault: Fault, rank: nat)
    requires RanksDistinct(ws)
    ensures TellAll(ws, fault, rank) == if Among(ws, rank) then Told(rank, fault) else []
  {
    if ws != [] {
      AmongRest(ws, rank);
      TellAllOnce(ws[1..], fault, rank);
    }
  }

  /** A queued caller is told of a failure on both channels, and dropped. */
  lemma {:induction false} NotifyWaitingTells(d: Desk, fault: Fault, rank: nat)
    ensures Mine(NotifyWaiting(d, fault).log, rank) == Mine(d.log, rank) + TellAll(d.waiting, fault, rank)
    decreases |d.waiting|
  {
    if d.waiting != [] {
      var first := d.waiting[0].rank;
      TellFirst(d.log, first, fault, rank);
      assert Without(d.waiting, 0) == d.waiting[1..];
      NotifyWaitingTells(Leave(d, 0, Regret(first, fault)), fault, rank);
      Assoc(Mine(d.log, rank), if first == rank then Told(rank, fault) else [], TellAll(d.waiting[1..], fault, rank));
    }
  }

  lemma QueueDistinct(d: Desk)
    requires DeskInv(d)
    ensures RanksDistinct(d.waiting)
  {
  }

  /** The words for a request on a stream. */
  function Farewells(p: Pending, fault: Fault): seq<Delivery> {
    if p.headers then [Head(p.rank, HeadFailed(fault)), Body(p.rank, BodyFailed(fault)), End(p.rank)]
    else [Body(p.rank, BodyFailed(fault)), End(p.rank)]
  }

  lemma PendingApart(d: Desk, sid: u32)
    requires DeskInv(d) && sid in d.pending
    ensures OnlyOn(d, sid, d.pending[sid].rank) && !Among(d.waiting, d.pending[sid].rank)
  {
    OnePending(d, sid);
  }

  /** Both loops, for any one caller: the stream it is on, if any, is in the order. */
  lemma BothTell(d: Desk, o: Outside, fault: Fault, sid: u32, rank: nat)
    requires OnlyOn(d, sid, rank) && RanksDistinct(d.waiting)
    ensures Mine(NotifyBoth(d, o, fault).log, rank)
            == Mine(d.log, rank) + (if sid in o.hash(d.pending) then FarewellIf(d, sid, rank, fault, true) else [])
               + if Among(d.waiting, rank) then Told(rank, fault) else []
  {
    NotifyAllTells(d, o.hash(d.pending), fault, sid, rank);
    NotifyAllKeeps(d, o.hash(d.pending), fault);
    NotifyWaitingTells(NotifyAll(d, o.hash(d.pending), fault), fault, rank);
    TellAllOnce(d.waiting, fault, rank);
  }

  lemma BothTellPending(d: Desk, o: Outside, fault: Fault, sid: u32)
    requires DeskInv(d) && ValidOutside(o) && sid in d.pending
    ensures var p := d.pending[sid];
            Mine(NotifyBoth(d, o, fault).log, p.rank) == Mine(d.log, p.rank) + Farewells(p, fault)
  {
    assert sid in (set k | k in o.hash(d.pending));
    PendingApart(d, sid);
    QueueDistinct(d);
    BothTell(d, o, fault, sid, d.pending[sid].rank);
  }

  lemma BothTellQueued(d: Desk, o: Outside, fault: Fault, i: nat)
    requires DeskInv(d) && i < |d.waiting|
    ensures Mine(NotifyBoth(d, o, fault).log, d.waiting[i].rank) == Told(d.waiting[i].rank, fault)
  {
    var rank := d.waiting[i].rank;
    NotQueuedAndPending(d, i);
    QueueDistinct(d);
    BothTell(d, o, fault, 0, rank);
    assert Among(d.waiting, rank);
    MineNone(d.log, rank);
  }

  lemma NotQueuedAndPending(d: Desk, i: nat)
    requires DeskInv(d) && i < |d.waiting|
    ensures OnlyOn(d, 0, d.waiting[i].rank) && !(0 in d.pending && d.pending[0].rank == d.waiting[i].rank)
    ensures Silent(d.log, d.waiting[i].rank)
  {
  }

  /** The arms that give everything up, and the fault each reports. */
  predicate GivesUp(a: Arm) {
    a.OnClosed? || a.OnTimeout? || (a.OnRead? && !a.wrote)
  }

  function FaultOf(a: Arm): Fault {
    if a.OnTimeout? then ShutdownFault else IoFault
  }

  lemma GivesUpDesk(s: System, a: Arm, o: Outside, s': System)
    requires SysInv(s) && SysNext(s, a, o, s') && GivesUp(a)
    ensures s'.desk == NotifyBoth(s.desk, o, FaultOf(a)) && DeskInv(s.desk) && !s'.running
  {
  }

  /** When the connection closes, a write is lost or the time to shut down is over, every caller on a stream
      and every caller in the queue is told so, once, and dropped. */
  lemma EveryoneIsTold(s: System, a: Arm, o: Outside, s': System)
    requires SysInv(s) && SysNext(s, a, o, s') && GivesUp(a)
    ensures forall sid :: sid in s.desk.pending ==>
              var p := s.desk.pending[sid];
              Mine(s'.desk.log, p.rank) == Mine(s.desk.log, p.rank) + Farewells(p, FaultOf(a))
    ensures forall i :: 0 <= i < |s.desk.waiting| ==>
              var rank, fault := s.desk.waiting[i].rank, FaultOf(a);
              Mine(s'.desk.log, rank) == [Head(rank, HeadFailed(fault)), Body(rank, BodyFailed(fault)), End(rank)]
  {
    GivesUpDesk(s, a, o, s');
    forall sid | sid in s.desk.pending
      ensures var p := s.desk.pending[sid];
              Mine(s'.desk.log, p.rank) == Mine(s.desk.log, p.rank) + Farewells(p, FaultOf(a))
    {
      BothTellPending(s.desk, o, FaultOf(a), sid);
    }
    forall i | 0 <= i < |s.desk.waiting|
      ensures var rank, fault := s.desk.waiting[i].rank, FaultOf(a);
              Mine(s'.desk.log, rank) == [Head(rank, HeadFailed(fault)), Body(rank, BodyFailed(fault)), End(rank)]
    {
      BothTellQueued(s.desk, o, FaultOf(a), i);
    }
  }

  // ---- Permits ------------------------------------------------------------------------------------

  lemma {:induction false} NotifyReleases(d: Desk, fault: Fault)
    ensures |d.released| <= |NotifyWaiting(d, fault).released| && NotifyWaiting(d, fault).arrivals == d.arrivals
    decreases |d.waiting|
  {
    if d.waiting != [] {
      NotifyReleases(Leave(d, 0, Regret(d.waiting[0].rank, fault)), fault);
    }
  }

  lemma BothRelease(d: Desk, o: Outside, fault: Fault)
    ensures |d.released| <= |NotifyBoth(d, o, fault).released| && NotifyBoth(d, o, fault).arrivals == d.arrivals
  {
    NotifyAllKeeps(d, o.hash(d.pending), fault);
    NotifyReleases(NotifyAll(d, o.hash(d.pending), fault), fault);
  }

  lemma {:induction false} DispatchReleases(w: World, d: Desk, o: Outside)
    requires ValidEngine(w.engine)
    ensures |d.released| <= |Dispatch(w, d, o).1.released| && Dispatch(w, d, o).1.arrivals == d.arrivals
    decreases |d.waiting|
  {
    if d.waiting != [] && CanOpenStream(w.engine.send.conn) {
      if o.gone(d.waiting[0].id) {
        DispatchReleases(w, Discard(d, 0), o);
      } else {
        var sid := w.engine.send.conn.nextStreamId;
        AskFixed(w.engine, d.waiting[0].request);
        if o.writes(sid) {
          DispatchReleases(AfterAsk(w, d.waiting[0].request), OpenHead(d, sid), o);
        } else {
          FailPending(OpenHead(d, sid), sid, IoFault);
        }
      }
    }
  }

  /** A turn takes no permit, and changes neither the limit nor who has arrived. */
  predicate Frees(s: System, s': System) {
    s.free <= s'.free && s'.limit == s.limit && s'.desk.arrivals == s.desk.arrivals && (s.shutdown ==> s'.shutdown)
  }

  lemma ArmFrees(s: System, o: Outside)
    requires ValidEngine(s.world.engine)
    ensures Frees(s, AfterArm(s, o)) && AfterArm(s, o).shutdown == s.shutdown
    ensures AfterArm(s, o).running && s.shutdown ==> !AllDone(AfterArm(s, o).desk)
    ensures |AfterArm(s, o).channel| <= |s.channel|
    ensures s.running && !AfterArm(s, o).running ==> s.shutdown || exists sid: u32 :: !o.writes(sid)
  {
    var (w, d, ok) := DispatchAll(s.world, s.desk, o);
    if s.world.engine.send.conn.error.Some? {
      NotifyReleases(s.desk, GoAwayFault);
    } else {
      DispatchReleases(s.world, s.desk, o);
      DispatchFails(s.world, s.desk, o);
    }
    if !ok {
      BothRelease(d, o, IoFault);
    }
  }

  lemma {:induction false} DispatchFails(w: World, d: Desk, o: Outside)
    requires ValidEngine(w.engine)
    ensures !Dispatch(w, d, o).2 ==> exists sid: u32 :: !o.writes(sid)
    decreases |d.waiting|
  {
    if d.waiting != [] && CanOpenStream(w.engine.send.conn) {
      if o.gone(d.waiting[0].id) {
        DispatchFails(w, Discard(d, 0), o);
      } else {
        var sid := w.engine.send.conn.nextStreamId;
        AskFixed(w.engine, d.waiting[0].request);
        if o.writes(sid) {
          DispatchFails(AfterAsk(w, d.waiting[0].request), OpenHead(d, sid), o);
        }
      }
    }
  }

  lemma AbortFrees(s: System, o: Outside, fault: Fault)
    ensures Frees(s, Abort(s, o, fault)) && !Abort(s, o, fault).running
  {
    BothRelease(s.desk, o, fault);
  }

  /** A step other than a caller's, or a caller's that takes no permit. */
  lemma TurnFrees(s: System, a: Arm, o: Outside, s': System)
    requires Step(s, a, o, s') && (a.OnCancel? || a.OnCancelClosed? || a.OnShutdown?)
    ensures Frees(s, s') && (s'.running && s'.shutdown ==> !AllDone(s'.desk)) && |s'.channel| <= |s.channel|
    ensures !s'.running ==> s'.shutdown || exists sid: u32 :: !o.writes(sid)
  {
    match a
    case OnCancel => ArmFrees(AfterCancel(s), o);
    case OnCancelClosed => ArmFrees(s.(cancelOpen := false), o);
    case OnShutdown => ArmFrees(s.(shutdown := true), o);
  }

  lemma {:induction false} EventsRelease(d: Desk, evs: seq<H2Event>, o: Outside)
    ensures SameQueue(d, OnEvents(d, evs, o.hash, o.status))
    decreases |evs|
  {
    if evs != [] {
      OnEventQueue(d, evs[0], o.hash, o.status);
      EventsRelease(OnEvent(d, evs[0], o.hash, o.status), evs[1..], o);
    }
  }

  lemma ReadFrees(s: System, ws: seq<World>, ls: seq<Label>, bad: Option<CodecError>, wrote: bool, o: Outside, s': System)
    requires Step(s, OnRead(ws, ls, bad, wrote), o, s')
    ensures Frees(s, s') && (s'.running && s'.shutdown ==> !AllDone(s'.desk)) && |s'.channel| <= |s.channel|
    ensures wrote && !s'.running ==> s'.shutdown || exists sid: u32 :: !o.writes(sid)
  {
    if wrote {
      EventsRelease(s.desk, Events(ls, bad), o);
      ArmFrees(Settle(s.(world := ws[|ls|]), OnEvents(s.desk, Events(ls, bad), o.hash, o.status)), o);
    } else {
      AbortFrees(s.(world := ws[|ls|]), o, IoFault);
    }
  }

  lemma CommandFrees(s: System, o: Outside, s': System)
    requires Step(s, OnCommand, o, s')
    ensures s.free <= s'.free && s'.limit == s.limit && !s.shutdown && !s'.shutdown && |s'.channel| <= |s.channel|
    ensures !s'.running ==> exists sid: u32 :: !o.writes(sid)
  {
    ArmFrees(TakeCommand(s, o), o);
  }

  /** What a step does to permits and to the loop. */
  ghost predicate Orderly(s: System, a: Arm, o: Outside, s': System) {
    && s'.limit == s.limit && (a.Acquire? || s.free <= s'.free) && (a.Acquire? ==> s'.free == s.free - 1)
    && (s.shutdown ==> s'.shutdown && s'.desk.arrivals == s.desk.arrivals) && (a.OnTimeout? ==> s.shutdown)
    && (if a.Enqueue? then |s'.channel| <= 64 else |s'.channel| <= |s.channel|)
    && (s.running && !s'.running ==> GivesUp(a) || s'.shutdown || exists sid: u32 :: !o.writes(sid))
    && (a.Acquire? || a.Enqueue? || a.Abandon? || a.Cancel? ==> s'.desk == s.desk && s'.shutdown == s.shutdown && s'.running == s.running)
    && (!(a.Acquire? || a.Enqueue? || a.Abandon? || a.Cancel?) && s'.running && s'.shutdown ==> !AllDone(s'.desk))
  }

  lemma StepOrderly(s: System, a: Arm, o: Outside, s': System)
    requires Step(s, a, o, s')
    ensures Orderly(s, a, o, s')
  {
    if a.OnCancel? || a.OnCancelClosed? || a.OnShutdown? {
      TurnFrees(s, a, o, s');
    } else if a.OnCommand? {
      CommandFrees(s, o, s');
    } else if a.OnRead? {
      ReadFrees(s, a.ws, a.ls, a.bad, a.wrote, o, s');
    } else if a.OnClosed? || a.OnTimeout? {
      AbortFrees(s, o, FaultOf(a));
    }
  }

  lemma BegunOrderly(s: System, first: Option<Request>)
    requires DriverTheorems.Fresh(s, first)
    ensures !s.shutdown && (s.limit.Some? ==> s.free >= 0) && s.channel == []
  {
    var limit, o :| Begins(s, first, limit, o);
    var w, profile, windowUpdate, blockLimit, policy :|
      BeginsWith(s, first, limit, o, w, profile, windowUpdate, blockLimit, policy);
  }

  lemma {:induction false} RunOrderly(t: Trace)
    requires SysRun(t)
    ensures (t.s.limit.Some? ==> t.s.free >= 0) && |t.s.channel| <= 64
    ensures t.s.shutdown && t.s.running ==> !AllDone(t.s.desk)
  {
    if t.Begun? {
      BegunOrderly(t.s, t.first);
    } else {
      RunOrderly(t.before);
      StepOrderly(t.before.s, t.arm, t.outside, t.s);
    }
  }

  /** With a limit of n there are never more than n requests being sent, in the channel or queued; and never
      more than 64 in the channel. */
  lemma PermitsBound(s: System)
    requires SysReachable(s)
    ensures s.limit.Some? ==> |s.senders| + |s.channel| + |s.desk.waiting| <= s.limit.value && s.free >= 0
    ensures |s.channel| <= 64
  {
    var t :| EndsIn(t, s);
    RunOrderly(t);
    PermitsConserved(s, 0);
  }

  /** A driver that is shutting down accepts nothing more and ends as soon as nothing is left to do; and the
      loop ends for no reason but a closed connection, a lost write, the time limit or that. */
  lemma ShutdownCompletes(t: Trace)
    requires SysRun(t)
    ensures t.s.shutdown && AllDone(t.s.desk) ==> !t.s.running
    ensures t.Then? && t.before.s.shutdown ==> t.s.shutdown && t.s.desk.arrivals == t.before.s.desk.arrivals
    ensures t.Then? && t.before.s.running && !t.s.running ==>
              GivesUp(t.arm) || t.s.shutdown || exists sid: u32 :: !t.outside.writes(sid)
    ensures t.Then? && t.arm.OnTimeout? ==> t.before.s.shutdown
  {
    RunOrderly(t);
    if t.Then? {
      StepOrderly(t.before.s, t.arm, t.outside, t.s);
    }
  }
}
