/** The request bookkeeping of the connection driver (lkh2/src/driver.rs): the queue of requests
    waiting for a stream, the map of streams waiting for a response, and what is sent to callers.
    The reply channels are a log of deliveries; `End` is the moment the driver drops its ends. */
module RequestDesk {
  import opened Wire
  import opened Engine

  datatype Fault = IoFault | GoAwayFault | ResetFault(code: u32) | ShutdownFault

  datatype HeadReply = Response(status: nat, headers: HeaderList) | HeadFailed(fault: Fault)
  datatype BodyReply = Chunk(data: bytes) | BodyFailed(fault: Fault)

  /** Something sent to a caller, who is named by the order of arrival. */
  datatype Delivery = Head(who: nat, head: HeadReply) | Body(who: nat, body: BodyReply) | End(who: nat)

  datatype Waiting = Waiting(id: nat, rank: nat, request: Request)

  /** A stream awaiting its response; `headers` while the header channel has not been used. */
  datatype Pending = Pending(rank: nat, headers: bool)

  datatype Opening = Opening(rank: nat, sid: u32)

  /** Queue and map, with three logs: streams opened, deliveries, and the ids of requests that left
      the queue, each giving back its permit. */
  datatype Desk = Desk(
    waiting: seq<Waiting>, pending: map<u32, Pending>, arrivals: nat,
    openings: seq<Opening>, log: seq<Delivery>, released: seq<nat>)

  const EMPTY_DESK: Desk := Desk([], map[], 0, [], [], [])

  /** `is_interim_status`. */
  predicate Interim(status: nat) {
    100 <= status < 200
  }

  // ---- One request --------------------------------------------------------------------------------

  function Arrive(d: Desk, id: nat, request: Request): Desk {
    d.(waiting := d.waiting + [Waiting(id, d.arrivals, request)], arrivals := d.arrivals + 1)
  }

  function Without(ws: seq<Waiting>, i: nat): seq<Waiting>
    requires i < |ws|
  {
    ws[..i] + ws[i + 1..]
  }

  /** A request leaves the queue; `said` is what its caller is told. */
  function Leave(d: Desk, i: nat, said: seq<Delivery>): Desk
    requires i < |d.waiting|
  {
    d.(waiting := Without(d.waiting, i), released := d.released + [d.waiting[i].id], log := d.log + said)
  }

  /** Dropped without a word. */
  function Discard(d: Desk, i: nat): Desk
    requires i < |d.waiting|
  {
    Leave(d, i, [End(d.waiting[i].rank)])
  }

  function Regret(rank: nat, fault: Fault): seq<Delivery> {
    [Head(rank, HeadFailed(fault)), Body(rank, BodyFailed(fault)), End(rank)]
  }

  /** The head of the queue gets a stream. */
  function OpenHead(d: Desk, sid: u32): Desk
    requires d.waiting != []
  {
    var r := d.waiting[0].rank;
    d.(waiting := d.waiting[1..], released := d.released + [d.waiting[0].id],
       pending := d.pending[sid := Pending(r, true)], openings := d.openings + [Opening(r, sid)])
  }

  /** The request written with the preface: it never queues and holds no permit. */
  function OpenFirst(d: Desk, sid: u32): Desk {
    d.(arrivals := d.arrivals + 1, pending := d.pending[sid := Pending(d.arrivals, true)],
       openings := d.openings + [Opening(d.arrivals, sid)])
  }

  /** `headers_tx.take()` and send, when it is still there. */
  function Reply(d: Desk, sid: u32, head: HeadReply): Desk
    requires sid in d.pending
  {
    var p := d.pending[sid];
    if p.headers then d.(pending := d.pending[sid := p.(headers := false)], log := d.log + [Head(p.rank, head)])
    else d
  }

  function SendBody(d: Desk, sid: u32, body: BodyReply): Desk
    requires sid in d.pending
  {
    d.(log := d.log + [Body(d.pending[sid].rank, body)])
  }

  function Finish(d: Desk, sid: u32): Desk
    requires sid in d.pending
  {
    d.(pending := d.pending - {sid}, log := d.log + [End(d.pending[sid].rank)])
  }

  function FailStream(d: Desk, sid: u32, fault: Fault): Desk {
    if sid !in d.pending then d
    else Finish(SendBody(Reply(d, sid, HeadFailed(fault)), sid, BodyFailed(fault)), sid)
  }

  /** A stream above the last one a graceful GOAWAY admits, or a first request that could not be
      written: only the header channel is told. */
  function RejectStream(d: Desk, sid: u32, fault: Fault): Desk {
    if sid !in d.pending then d else Finish(Reply(d, sid, HeadFailed(fault)), sid)
  }

  // ---- Many requests ------------------------------------------------------------------------------

  /** `notify_waiting_error`. */
  function NotifyWaiting(d: Desk, fault: Fault): Desk
    decreases |d.waiting|
  {
    if d.waiting == [] then d else NotifyWaiting(Leave(d, 0, Regret(d.waiting[0].rank, fault)), fault)
  }

  type Ending = (Desk, u32) -> Desk

  /** One stream after the other, in the hash map's order. */
  function Each(d: Desk, order: seq<u32>, f: Ending): Desk
    decreases |order|
  {
    if order == [] then d else Each(f(d, order[0]), order[1..], f)
  }

  function Failing(fault: Fault): Ending {
    (d: Desk, sid: u32) => FailStream(d, sid, fault)
  }

  function Rejecting(last: u32): Ending {
    (d: Desk, sid: u32) => if sid > last then RejectStream(d, sid, GoAwayFault) else d
  }

  /** `notify_all_error`. */
  function NotifyAll(d: Desk, order: seq<u32>, fault: Fault): Desk {
    Each(d, order, Failing(fault))
  }

  /** The graceful GOAWAY: every stream above `last`. */
  function RejectAbove(d: Desk, order: seq<u32>, last: u32): Desk {
    Each(d, order, Rejecting(last))
  }

  /** The first queued request with this id, or the queue's length. */
  function Position(ws: seq<Waiting>, id: nat): (i: nat)
    ensures i <= |ws| && (i < |ws| ==> ws[i].id == id) && forall k :: 0 <= k < i ==> ws[k].id != id
  {
    if ws == [] || ws[0].id == id then 0 else 1 + Position(ws[1..], id)
  }

  /** `remove_waiting_request`. */
  function RemoveWaiting(d: Desk, id: nat): Desk {
    var i := Position(d.waiting, id);
    if i < |d.waiting| then Discard(d, i) else d
  }

  type HashOrder = map<u32, Pending> -> seq<u32>

  /** `handle_event`; `status` reads the status out of a header list, zero if there is none. */
  function OnEvent(d: Desk, ev: H2Event, hash: HashOrder, status: HeaderList -> nat): Desk {
    match ev
    case ResponseHeaders(sid, headers, endStream) =>
      if sid !in d.pending || Interim(status(headers)) then d
      else
        var d1 := Reply(d, sid, Response(status(headers), headers));
        if endStream then Finish(d1, sid) else d1
    case ResponseData(sid, data, endStream) =>
      if sid !in d.pending then d
      else
        var d1 := if data != [] then SendBody(d, sid, Chunk(data)) else d;
        if endStream then Finish(d1, sid) else d1
    case StreamReset(sid, code) => FailStream(d, sid, ResetFault(code))
    case GoAwayReceived(last, code, _) =>
      if code != 0 then NotifyAll(d, hash(d.pending), GoAwayFault) else RejectAbove(d, hash(d.pending), last)
    case _ => d
  }

  function OnEvents(d: Desk, evs: seq<H2Event>, hash: HashOrder, status: HeaderList -> nat): Desk
    decreases |evs|
  {
    if evs == [] then d else OnEvents(OnEvent(d, evs[0], hash, status), evs[1..], hash, status)
  }

  // ---- The invariant ------------------------------------------------------------------------------

  /** The reply channels: at most one header reply, never an interim one, and nothing after the end. */
  predicate LogOk(log: seq<Delivery>) {
    && (forall i, j :: 0 <= i < j < |log| && log[i].End? ==> log[j].who != log[i].who)
    && (forall i, j :: 0 <= i < j < |log| && log[i].Head? && log[j].Head? ==> log[j].who != log[i].who)
    && (forall i :: 0 <= i < |log| && log[i].Head? && log[i].head.Response? ==> !Interim(log[i].head.status))
  }

  predicate Silent(log: seq<Delivery>, rank: nat) {
    forall i :: 0 <= i < |log| ==> log[i].who != rank
  }

  predicate NoHead(log: seq<Delivery>, rank: nat) {
    forall i :: 0 <= i < |log| ==> !(log[i].Head? && log[i].who == rank)
  }

  predicate Ended(log: seq<Delivery>, rank: nat) {
    End(rank) in log
  }

  /** Arrival order is kept: opened streams, then the queue. */
  predicate QueueOk(d: Desk) {
    && (forall i :: 0 <= i < |d.waiting| ==> d.waiting[i].rank < d.arrivals && Silent(d.log, d.waiting[i].rank))
    && (forall i, j :: 0 <= i < j < |d.waiting| ==> d.waiting[i].rank < d.waiting[j].rank)
    && (forall i, j :: 0 <= i < |d.openings| && 0 <= j < |d.waiting| ==> d.openings[i].rank < d.waiting[j].rank)
  }

  /** Streams are opened in arrival order, with the odd ids one after the other. */
  predicate OpenedOk(d: Desk) {
    && (forall i :: 0 <= i < |d.openings| ==> d.openings[i].rank < d.arrivals && d.openings[i].sid == 2 * i + 1)
    && (forall i, j :: 0 <= i < j < |d.openings| ==> d.openings[i].rank < d.openings[j].rank)
  }

  predicate PendingOk(d: Desk) {
    forall sid :: sid in d.pending ==>
      && Opening(d.pending[sid].rank, sid) in d.openings
      && !Ended(d.log, d.pending[sid].rank)
      && (d.pending[sid].headers <==> NoHead(d.log, d.pending[sid].rank))
  }

  predicate InQueue(d: Desk, rank: nat) {
    exists i :: 0 <= i < |d.waiting| && d.waiting[i].rank == rank
  }

  predicate InPending(d: Desk, rank: nat) {
    exists sid :: sid in d.pending && d.pending[sid].rank == rank
  }

  predicate Placed(d: Desk, rank: nat) {
    InQueue(d, rank) || InPending(d, rank) || Ended(d.log, rank)
  }

  predicate DeskInv(d: Desk) {
    && LogOk(d.log) && QueueOk(d) && OpenedOk(d) && PendingOk(d)
    && (forall i :: 0 <= i < |d.log| ==> d.log[i].who < d.arrivals)
    && (forall k: nat :: k < d.arrivals ==> Placed(d, k))
  }

  // ---- Every step keeps it ------------------------------------------------------------------------

  lemma ArriveKeeps(d: Desk, id: nat, request: Request)
    requires DeskInv(d)
    ensures DeskInv(Arrive(d, id, request))
  {
    var d' := Arrive(d, id, request);
    forall k: nat | k < d'.arrivals
      ensures Placed(d', k)
    {
      if k < d.arrivals {
        assert Placed(d, k);
        if InQueue(d, k) {
          var i :| 0 <= i < |d.waiting| && d.waiting[i].rank == k;
          assert d'.waiting[i].rank == k;
        }
      } else {
        assert d'.waiting[|d.waiting|].rank == k;
      }
    }
  }

  predicate MaySay(log: seq<Delivery>, x: Delivery) {
    && !Ended(log, x.who)
    && (x.Head? ==> NoHead(log, x.who) && (x.head.Response? ==> !Interim(x.head.status)))
  }

  lemma SayKeeps(log: seq<Delivery>, x: Delivery)
    requires LogOk(log) && MaySay(log, x)
    ensures LogOk(log + [x])
    ensures forall k :: Ended(log + [x], k) <==> Ended(log, k) || x == End(k)
    ensures forall k :: NoHead(log + [x], k) <==> NoHead(log, k) && !(x.Head? && x.who == k)
    ensures forall k :: Silent(log + [x], k) <==> Silent(log, k) && x.who != k
  {
    var all := log + [x];
    forall i, j | 0 <= i < j < |all| && all[i].End?
      ensures all[j].who != all[i].who
    {
      assert all[i] == log[i] == End(log[i].who);
    }
    forall k
      ensures Ended(all, k) <==> Ended(log, k) || x == End(k)
      ensures NoHead(all, k) <==> NoHead(log, k) && !(x.Head? && x.who == k)
      ensures Silent(all, k) <==> Silent(log, k) && x.who != k
    {
      assert forall i :: 0 <= i < |log| ==> all[i] == log[i];
      assert all[|log|] == x;
    }
  }

  lemma RegretKeeps(log: seq<Delivery>, rank: nat, fault: Fault)
    requires LogOk(log) && Silent(log, rank)
    ensures var all := log + Regret(rank, fault);
            && LogOk(all)
            && (forall k :: Ended(all, k) <==> Ended(log, k) || k == rank)
            && (forall k :: k != rank ==> (NoHead(all, k) <==> NoHead(log, k)) && (Silent(all, k) <==> Silent(log, k)))
  {
    var head, body := Head(rank, HeadFailed(fault)), Body(rank, BodyFailed(fault));
    SayKeeps(log, head);
    SayKeeps(log + [head], body);
    SayKeeps(log + [head] + [body], End(rank));
    assert log + Regret(rank, fault) == log + [head] + [body] + [End(rank)];
  }

  /** The log says more about one request only, and ends it. */
  ghost predicate EndsOne(log: seq<Delivery>, log': seq<Delivery>, rank: nat) {
    && LogOk(log')
    && (forall k :: Ended(log', k) <==> Ended(log, k) || k == rank)
    && (forall k :: k != rank ==> (NoHead(log', k) <==> NoHead(log, k)) && (Silent(log', k) <==> Silent(log, k)))
    && (forall i :: 0 <= i < |log'| ==> log'[i] in log || log'[i].who == rank)
  }

  lemma LeavePlaced(d: Desk, i: nat, said: seq<Delivery>, k: nat)
    requires i < |d.waiting| && Ended(d.log + said, d.waiting[i].rank) && Placed(d, k)
    ensures Placed(Leave(d, i, said), k)
  {
    var d' := Leave(d, i, said);
    if k != d.waiting[i].rank && InQueue(d, k) {
      var j :| 0 <= j < |d.waiting| && d.waiting[j].rank == k;
      assert d'.waiting[if j < i then j else j - 1].rank == k;
    }
  }

  lemma LeaveQueue(d: Desk, i: nat, said: seq<Delivery>)
    requires QueueOk(d) && i < |d.waiting|
    requires forall k :: k != d.waiting[i].rank && Silent(d.log, k) ==> Silent(d.log + said, k)
    ensures QueueOk(Leave(d, i, said))
  {
    var d' := Leave(d, i, said);
    assert forall j :: 0 <= j < |d'.waiting| ==> d'.waiting[j] == d.waiting[if j < i then j else j + 1];
  }

  lemma LeaveKeeps(d: Desk, i: nat, said: seq<Delivery>)
    requires DeskInv(d) && i < |d.waiting| && EndsOne(d.log, d.log + said, d.waiting[i].rank)
    ensures DeskInv(Leave(d, i, said))
  {
    LeaveQueue(d, i, said);
    forall k: nat | k < d.arrivals
      ensures Placed(Leave(d, i, said), k)
    {
      LeavePlaced(d, i, said, k);
    }
  }

  lemma DiscardKeeps(d: Desk, i: nat)
    requires DeskInv(d) && i < |d.waiting|
    ensures DeskInv(Discard(d, i))
  {
    SayKeeps(d.log, End(d.waiting[i].rank));
    LeaveKeeps(d, i, [End(d.waiting[i].rank)]);
  }

  lemma {:induction false} NotifyWaitingKeeps(d: Desk, fault: Fault)
    requires DeskInv(d)
    ensures var d' := NotifyWaiting(d, fault);
            DeskInv(d') && d'.waiting == [] && d'.pending == d.pending && d'.openings == d.openings
            && d'.arrivals == d.arrivals
    decreases |d.waiting|
  {
    if d.waiting != [] {
      var r := d.waiting[0].rank;
      RegretKeeps(d.log, r, fault);
      LeaveKeeps(d, 0, Regret(r, fault));
      NotifyWaitingKeeps(Leave(d, 0, Regret(r, fault)), fault);
    }
  }

  lemma OpenPlaced(d: Desk, sid: u32, k: nat)
    requires d.waiting != [] && sid !in d.pending && Placed(d, k)
    ensures Placed(OpenHead(d, sid), k)
  {
    var d' := OpenHead(d, sid);
    if k == d.waiting[0].rank {
      assert d'.pending[sid].rank == k;
    } else if InQueue(d, k) {
      var j :| 0 <= j < |d.waiting| && d.waiting[j].rank == k;
      assert d'.waiting[j - 1].rank == k;
    } else if InPending(d, k) {
      var t :| t in d.pending && d.pending[t].rank == k;
      assert d'.pending[t].rank == k;
    }
  }

  lemma OpenPending(d: Desk, sid: u32)
    requires d.waiting != [] && PendingOk(d) && Silent(d.log, d.waiting[0].rank)
    ensures PendingOk(OpenHead(d, sid))
  {
    var d' := OpenHead(d, sid);
    assert d'.openings[|d.openings|] == Opening(d.waiting[0].rank, sid);
    assert forall o :: o in d.openings ==> o in d'.openings;
  }

  lemma OpenQueue(d: Desk, sid: u32)
    requires QueueOk(d) && d.waiting != []
    ensures QueueOk(OpenHead(d, sid))
  {
    var d' := OpenHead(d, sid);
    forall i, j | 0 <= i < |d'.openings| && 0 <= j < |d'.waiting|
      ensures d'.openings[i].rank < d'.waiting[j].rank
    {
      assert d'.waiting[j] == d.waiting[j + 1];
    }
  }

  lemma OpenOrder(d: Desk, sid: u32)
    requires QueueOk(d) && OpenedOk(d) && d.waiting != [] && sid == 2 * |d.openings| + 1
    ensures OpenedOk(OpenHead(d, sid))
  {
    assert forall i :: 0 <= i < |d.openings| ==> d.openings[i].rank < d.waiting[0].rank;
  }

  /** The next stream id displaces no pending entry. */
  lemma OpenHeadKeeps(d: Desk, sid: u32)
    requires DeskInv(d) && d.waiting != [] && sid == 2 * |d.openings| + 1
    ensures sid !in d.pending && DeskInv(OpenHead(d, sid))
  {
    OpenPending(d, sid);
    OpenQueue(d, sid);
    OpenOrder(d, sid);
    forall k: nat | k < d.arrivals
      ensures Placed(OpenHead(d, sid), k)
    {
      OpenPlaced(d, sid, k);
    }
  }

  lemma OpenFirstKeeps(d: Desk, sid: u32)
    requires d == EMPTY_DESK && sid == 2 * |d.openings| + 1
    ensures DeskInv(OpenFirst(d, sid))
  {
    var d' := OpenFirst(d, sid);
    assert d'.openings[0] == Opening(0, sid);
    assert d'.pending[sid].rank == 0;
  }

  // ---- Replies ------------------------------------------------------------------------------------

  lemma ReplyPending(d: Desk, sid: u32, head: HeadReply)
    requires LogOk(d.log) && QueueOk(d) && OpenedOk(d) && PendingOk(d) && sid in d.pending
    requires head.Response? ==> !Interim(head.status)
    ensures PendingOk(Reply(d, sid, head))
  {
    var p := d.pending[sid];
    if p.headers {
      SayKeeps(d.log, Head(p.rank, head));
      OnePending(d, sid);
    }
  }

  /** A delivery to a pending request does not touch the queue. */
  lemma SayQueue(d: Desk, x: Delivery, d': Desk)
    requires QueueOk(d) && d'.waiting == d.waiting && d'.openings == d.openings && d'.arrivals == d.arrivals
    requires d'.log == d.log + [x] && forall i :: 0 <= i < |d.waiting| ==> d.waiting[i].rank != x.who
    ensures QueueOk(d')
  {
  }

  lemma ReplyKeeps(d: Desk, sid: u32, head: HeadReply)
    requires DeskInv(d) && sid in d.pending && (head.Response? ==> !Interim(head.status))
    ensures DeskInv(Reply(d, sid, head))
  {
    var d' := Reply(d, sid, head);
    if d.pending[sid].headers {
      var x := Head(d.pending[sid].rank, head);
      OnePending(d, sid);
      ReplyPending(d, sid, head);
      SayQueue(d, x, d');
      assert LogOk(d'.log) by {
        SayKeeps(d.log, x);
      }
      forall k: nat | k < d.arrivals
        ensures Placed(d', k)
      {
        StillPlaced(d, d', sid, k);
      }
    }
  }

  /** No other stream, and nothing queued, has this stream's request. */
  lemma OnePending(d: Desk, sid: u32)
    requires QueueOk(d) && OpenedOk(d) && PendingOk(d) && sid in d.pending
    ensures forall t :: t in d.pending && t != sid ==> d.pending[t].rank != d.pending[sid].rank
    ensures forall i :: 0 <= i < |d.waiting| ==> d.waiting[i].rank != d.pending[sid].rank
    ensures d.pending[sid].rank < d.arrivals && sid < 2 * |d.openings| + 1
  {
  }

  lemma StillPlaced(d: Desk, d': Desk, sid: u32, k: nat)
    requires Placed(d, k) && d'.waiting == d.waiting && sid in d.pending
    requires sid in d'.pending && d'.pending[sid].rank == d.pending[sid].rank
    requires forall t :: t in d.pending && t != sid ==> t in d'.pending && d'.pending[t] == d.pending[t]
    requires forall x :: x in d.log ==> x in d'.log
    ensures Placed(d', k)
  {
    if InQueue(d, k) {
      assert InQueue(d', k);
    } else if InPending(d, k) {
      var t :| t in d.pending && d.pending[t].rank == k;
      assert d'.pending[t].rank == k;
    }
  }

  lemma SendBodyKeeps(d: Desk, sid: u32, body: BodyReply)
    requires DeskInv(d) && sid in d.pending
    ensures DeskInv(SendBody(d, sid, body))
  {
    SayKeeps(d.log, Body(d.pending[sid].rank, body));
    OnePending(d, sid);
    forall k: nat | k < d.arrivals
      ensures Placed(SendBody(d, sid, body), k)
    {
      StillPlaced(d, SendBody(d, sid, body), sid, k);
    }
  }

  lemma FinishPlaced(d: Desk, sid: u32, k: nat)
    requires sid in d.pending && Placed(d, k)
    ensures Placed(Finish(d, sid), k)
  {
    var d' := Finish(d, sid);
    if k == d.pending[sid].rank {
      assert d'.log[|d.log|] == End(k);
    } else if InPending(d, k) {
      var t :| t in d.pending && d.pending[t].rank == k;
      assert d'.pending[t].rank == k;
    } else {
      assert InQueue(d, k) ==> InQueue(d', k);
    }
  }

  lemma FinishKeeps(d: Desk, sid: u32)
    requires DeskInv(d) && sid in d.pending
    ensures DeskInv(Finish(d, sid))
  {
    SayKeeps(d.log, End(d.pending[sid].rank));
    OnePending(d, sid);
    forall k: nat | k < d.arrivals
      ensures Placed(Finish(d, sid), k)
    {
      FinishPlaced(d, sid, k);
    }
  }

  lemma FailStreamKeeps(d: Desk, sid: u32, fault: Fault)
    requires DeskInv(d)
    ensures DeskInv(FailStream(d, sid, fault))
  {
    if sid in d.pending {
      var d1 := Reply(d, sid, HeadFailed(fault));
      ReplyKeeps(d, sid, HeadFailed(fault));
      SendBodyKeeps(d1, sid, BodyFailed(fault));
      FinishKeeps(SendBody(d1, sid, BodyFailed(fault)), sid);
    }
  }

  lemma RejectStreamKeeps(d: Desk, sid: u32, fault: Fault)
    requires DeskInv(d)
    ensures DeskInv(RejectStream(d, sid, fault))
  {
    if sid in d.pending {
      ReplyKeeps(d, sid, HeadFailed(fault));
      FinishKeeps(Reply(d, sid, HeadFailed(fault)), sid);
    }
  }

  predicate SameQueue(d: Desk, d': Desk) {
    d'.waiting == d.waiting && d'.openings == d.openings && d'.arrivals == d.arrivals && d'.released == d.released
  }

  ghost predicate Preserving(f: Ending) {
    forall d: Desk, sid: u32 :: DeskInv(d) ==> DeskInv(f(d, sid))
  }

  /** Takes the streams in `hit` out of the map and leaves the queue alone. */
  ghost predicate Removing(f: Ending, hit: u32 -> bool) {
    forall d: Desk, sid: u32 ::
      SameQueue(d, f(d, sid)) && f(d, sid).pending == if hit(sid) then d.pending - {sid} else d.pending
  }

  lemma {:induction false} EachKeeps(d: Desk, order: seq<u32>, f: Ending)
    requires Preserving(f) && DeskInv(d)
    ensures DeskInv(Each(d, order, f))
    decreases |order|
  {
    if order != [] {
      assert DeskInv(f(d, order[0]));
      EachKeeps(f(d, order[0]), order[1..], f);
    }
  }

  lemma {:induction false} EachPending(d: Desk, order: seq<u32>, f: Ending, hit: u32 -> bool)
    requires Removing(f, hit)
    ensures SameQueue(d, Each(d, order, f))
    ensures Each(d, order, f).pending == d.pending - (set sid | sid in order && hit(sid))
    decreases |order|
  {
    if order != [] {
      assert SameQueue(d, f(d, order[0]));
      EachPending(f(d, order[0]), order[1..], f, hit);
    }
  }

  lemma FailPending(d: Desk, sid: u32, fault: Fault)
    ensures SameQueue(d, FailStream(d, sid, fault)) && FailStream(d, sid, fault).pending == d.pending - {sid}
  {
  }

  lemma FailingRemoves(fault: Fault)
    ensures Removing(Failing(fault), _ => true)
  {
    forall d: Desk, sid: u32
      ensures SameQueue(d, Failing(fault)(d, sid)) && Failing(fault)(d, sid).pending == d.pending - {sid}
    {
      FailPending(d, sid, fault);
    }
  }

  lemma FailingWorks(fault: Fault)
    ensures Preserving(Failing(fault)) && Removing(Failing(fault), _ => true)
  {
    FailingRemoves(fault);
    forall d: Desk, sid: u32 | DeskInv(d)
      ensures DeskInv(Failing(fault)(d, sid))
    {
      FailStreamKeeps(d, sid, fault);
    }
  }

  lemma RejectingWorks(last: u32)
    ensures Preserving(Rejecting(last)) && Removing(Rejecting(last), sid => sid > last)
  {
    forall d: Desk, sid: u32 | DeskInv(d)
      ensures DeskInv(Rejecting(last)(d, sid))
    {
      RejectStreamKeeps(d, sid, GoAwayFault);
    }
  }

  lemma NotifyAllKeeps(d: Desk, order: seq<u32>, fault: Fault)
    ensures DeskInv(d) ==> DeskInv(NotifyAll(d, order, fault))
    ensures SameQueue(d, NotifyAll(d, order, fault))
    ensures NotifyAll(d, order, fault).pending == d.pending - (set sid | sid in order)
  {
    FailingWorks(fault);
    EachPending(d, order, Failing(fault), _ => true);
    if DeskInv(d) {
      EachKeeps(d, order, Failing(fault));
    }
  }

  lemma RejectAboveKeeps(d: Desk, order: seq<u32>, last: u32)
    ensures DeskInv(d) ==> DeskInv(RejectAbove(d, order, last))
    ensures SameQueue(d, RejectAbove(d, order, last))
    ensures RejectAbove(d, order, last).pending == d.pending - (set sid | sid in order && sid > last)
  {
    RejectingWorks(last);
    EachPending(d, order, Rejecting(last), sid => sid > last);
    if DeskInv(d) {
      EachKeeps(d, order, Rejecting(last));
    }
  }

  lemma OnEventKeeps(d: Desk, ev: H2Event, hash: HashOrder, status: HeaderList -> nat)
    requires DeskInv(d)
    ensures DeskInv(OnEvent(d, ev, hash, status))
  {
    match ev
    case ResponseHeaders(sid, headers, endStream) =>
      if sid in d.pending && !Interim(status(headers)) {
        ReplyKeeps(d, sid, Response(status(headers), headers));
        if endStream {
          FinishKeeps(Reply(d, sid, Response(status(headers), headers)), sid);
        }
      }
    case ResponseData(sid, data, endStream) =>
      if sid in d.pending {
        SendBodyKeeps(d, sid, Chunk(data));
        if endStream {
          FinishKeeps(if data != [] then SendBody(d, sid, Chunk(data)) else d, sid);
        }
      }
    case StreamReset(sid, code) => FailStreamKeeps(d, sid, ResetFault(code));
    case GoAwayReceived(last, code, _) =>
      NotifyAllKeeps(d, hash(d.pending), GoAwayFault);
      RejectAboveKeeps(d, hash(d.pending), last);
    case _ =>
  }

  lemma OnEventQueue(d: Desk, ev: H2Event, hash: HashOrder, status: HeaderList -> nat)
    ensures SameQueue(d, OnEvent(d, ev, hash, status))
  {
    if ev.GoAwayReceived? {
      NotifyAllKeeps(d, hash(d.pending), GoAwayFault);
      RejectAboveKeeps(d, hash(d.pending), ev.lastStreamId);
    }
  }

  lemma {:induction false} OnEventsKeeps(d: Desk, evs: seq<H2Event>, hash: HashOrder,
                                         status: HeaderList -> nat)
    requires DeskInv(d)
    ensures DeskInv(OnEvents(d, evs, hash, status)) && SameQueue(d, OnEvents(d, evs, hash, status))
    decreases |evs|
  {
    if evs != [] {
      OnEventKeeps(d, evs[0], hash, status);
      OnEventQueue(d, evs[0], hash, status);
      OnEventsKeeps(OnEvent(d, evs[0], hash, status), evs[1..], hash, status);
    }
  }

  lemma RemoveWaitingKeeps(d: Desk, id: nat)
    requires DeskInv(d)
    ensures DeskInv(RemoveWaiting(d, id))
  {
    if Position(d.waiting, id) < |d.waiting| {
      DiscardKeeps(d, Position(d.waiting, id));
    }
  }

  // ---- Permits ------------------------------------------------------------------------------------

  function IdBag(ws: seq<Waiting>): multiset<nat> {
    if ws == [] then multiset{} else multiset{ws[0].id} + IdBag(ws[1..])
  }

  /** The ids that are, or have been, in the queue. */
  function Queued(d: Desk): multiset<nat> {
    IdBag(d.waiting) + multiset(d.released)
  }

  lemma {:induction false} IdBagWithout(ws: seq<Waiting>, i: nat)
    requires i < |ws|
    ensures IdBag(ws) == IdBag(Without(ws, i)) + multiset{ws[i].id}
    decreases i
  {
    if i == 0 {
      assert Without(ws, 0) == ws[1..];
    } else {
      IdBagWithout(ws[1..], i - 1);
      assert Without(ws, i)[1..] == Without(ws[1..], i - 1);
    }
  }

  lemma {:induction false} IdBagPush(ws: seq<Waiting>, x: Waiting)
    ensures IdBag(ws + [x]) == IdBag(ws) + multiset{x.id}
    decreases |ws|
  {
    if ws == [] {
      assert ws + [x] == [x];
      assert [x][1..] == [];
    } else {
      assert (ws + [x])[1..] == ws[1..] + [x];
      IdBagPush(ws[1..], x);
    }
  }

  /** Leaving the queue gives exactly one permit back; arriving brings exactly one. */
  predicate SameQueued(d: Desk, d': Desk) {
    Queued(d') == Queued(d) && |d'.waiting| + |d'.released| == |d.waiting| + |d.released|
  }

  lemma LeaveQueued(d: Desk, i: nat, said: seq<Delivery>)
    requires i < |d.waiting|
    ensures SameQueued(d, Leave(d, i, said))
  {
    IdBagWithout(d.waiting, i);
  }

  lemma {:induction false} NotifyWaitingQueued(d: Desk, fault: Fault)
    ensures SameQueued(d, NotifyWaiting(d, fault)) && NotifyWaiting(d, fault).waiting == []
    decreases |d.waiting|
  {
    if d.waiting != [] {
      var said := Regret(d.waiting[0].rank, fault);
      LeaveQueued(d, 0, said);
      NotifyWaitingQueued(Leave(d, 0, said), fault);
    }
  }
}
