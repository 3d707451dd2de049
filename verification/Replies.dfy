/** What one caller sees of the driver's event handling: its stream's own events and nothing else,
    whatever other streams exist and in whichever order the hash map is visited. */
module Replies {
  import opened Wire
  import opened Engine
  import opened RequestDesk

  function Mine(log: seq<Delivery>, rank: nat): seq<Delivery> {
    if log == [] then []
    else Mine(log[..|log| - 1], rank) + (if log[|log| - 1].who == rank then [log[|log| - 1]] else [])
  }

  lemma {:induction false} MineAppend(a: seq<Delivery>, b: seq<Delivery>, rank: nat)
    ensures Mine(a + b, rank) == Mine(a, rank) + Mine(b, rank)
    decreases |b|
  {
    if b == [] {
      assert a + b == a;
    } else {
      var last := b[|b| - 1];
      assert (a + b)[..|a + b| - 1] == a + b[..|b| - 1];
      MineAppend(a, b[..|b| - 1], rank);
    }
  }

  lemma {:induction false} MineAll(xs: seq<Delivery>, rank: nat)
    requires forall i :: 0 <= i < |xs| ==> xs[i].who == rank
    ensures Mine(xs, rank) == xs
  {
    if xs != [] {
      MineAll(xs[..|xs| - 1], rank);
    }
  }

  lemma {:induction false} MineNone(xs: seq<Delivery>, rank: nat)
    requires forall i :: 0 <= i < |xs| ==> xs[i].who != rank
    ensures Mine(xs, rank) == []
  {
    if xs != [] {
      MineNone(xs[..|xs| - 1], rank);
    }
  }

  /** A block of deliveries to one caller, as that caller and as any other sees it. */
  lemma MineBlock(log: seq<Delivery>, block: seq<Delivery>, who: nat, rank: nat)
    requires forall i :: 0 <= i < |block| ==> block[i].who == who
    ensures Mine(log + block, rank) == Mine(log, rank) + if who == rank then block else []
  {
    MineAppend(log, block, rank);
    if who == rank {
      MineAll(block, rank);
    } else {
      MineNone(block, rank);
    }
  }

  function Told(p: Pending, fault: Fault): seq<Delivery> {
    if p.headers then [Head(p.rank, HeadFailed(fault))] else []
  }

  function Regrets(p: Pending, fault: Fault): seq<Delivery> {
    Told(p, fault) + [Body(p.rank, BodyFailed(fault))] + [End(p.rank)]
  }

  /** The caller's view of an event, from its own stream alone. */
  function Replied(p: Pending, sid: u32, ev: H2Event, status: HeaderList -> nat): seq<Delivery> {
    match ev
    case ResponseHeaders(s, headers, endStream) =>
      if s != sid || Interim(status(headers)) then []
      else
        (if p.headers then [Head(p.rank, Response(status(headers), headers))] else [])
        + (if endStream then [End(p.rank)] else [])
    case ResponseData(s, data, endStream) =>
      if s != sid then []
      else (if data != [] then [Body(p.rank, Chunk(data))] else []) + (if endStream then [End(p.rank)] else [])
    case StreamReset(s, code) => if s != sid then [] else Regrets(p, ResetFault(code))
    case GoAwayReceived(last, code, _) =>
      if code != 0 then Regrets(p, GoAwayFault)
      else if sid > last then Told(p, GoAwayFault) + [End(p.rank)]
      else []
    case _ => []
  }

  /** What ending a stream adds to the log. */
  function Farewell(p: Pending, fault: Fault, body: bool): seq<Delivery> {
    if body then Regrets(p, fault) else Told(p, fault) + [End(p.rank)]
  }

  function EndStream(d: Desk, sid: u32, fault: Fault, body: bool): Desk {
    if body then FailStream(d, sid, fault) else RejectStream(d, sid, fault)
  }

  lemma EndLog(d: Desk, sid: u32, fault: Fault, body: bool)
    requires sid in d.pending
    ensures EndStream(d, sid, fault, body).log == d.log + Farewell(d.pending[sid], fault, body)
    ensures EndStream(d, sid, fault, body).pending == d.pending - {sid}
  {
    var p := d.pending[sid];
    var d1 := Reply(d, sid, HeadFailed(fault));
    assert d1.log == d.log + Told(p, fault);
    if body {
      assert (d.log + Told(p, fault)) + [Body(p.rank, BodyFailed(fault))] + [End(p.rank)] == d.log + Regrets(p, fault);
    } else {
      assert (d.log + Told(p, fault)) + [End(p.rank)] == d.log + Farewell(p, fault, body);
    }
  }

  /** Ending a stream tells its own caller, and only that one. */
  lemma EndTells(d: Desk, sid: u32, fault: Fault, body: bool, rank: nat)
    requires sid in d.pending
    ensures var p := d.pending[sid];
            Mine(EndStream(d, sid, fault, body).log, rank)
            == Mine(d.log, rank) + if p.rank == rank then Farewell(p, fault, body) else []
  {
    EndLog(d, sid, fault, body);
    MineBlock(d.log, Farewell(d.pending[sid], fault, body), d.pending[sid].rank, rank);
  }

  /** No stream but `sid`, if that, is this caller's. */
  predicate OnlyOn(d: Desk, sid: u32, rank: nat) {
    forall t :: t in d.pending && t != sid ==> d.pending[t].rank != rank
  }

  function FarewellIf(d: Desk, sid: u32, rank: nat, fault: Fault, body: bool): seq<Delivery> {
    if sid in d.pending && d.pending[sid].rank == rank then Farewell(d.pending[sid], fault, body) else []
  }

  lemma EndPending(d: Desk, other: u32, fault: Fault, body: bool)
    ensures EndStream(d, other, fault, body).pending == d.pending - {other}
  {
    if other in d.pending {
      EndLog(d, other, fault, body);
    }
  }

  lemma EndOther(d: Desk, sid: u32, other: u32, rank: nat, fault: Fault, body: bool)
    requires OnlyOn(d, sid, rank)
    ensures var d' := EndStream(d, other, fault, body);
            && OnlyOn(d', sid, rank)
            && FarewellIf(d', sid, rank, fault, body) == (if other == sid then [] else FarewellIf(d, sid, rank, fault, body))
  {
    EndPending(d, other, fault, body);
  }

  lemma EndMine(d: Desk, sid: u32, other: u32, rank: nat, fault: Fault, body: bool)
    requires OnlyOn(d, sid, rank)
    ensures Mine(EndStream(d, other, fault, body).log, rank)
            == Mine(d.log, rank) + (if other == sid then FarewellIf(d, sid, rank, fault, body) else [])
  {
    if other in d.pending {
      EndTells(d, other, fault, body, rank);
    }
  }

  /** `f` ends streams one by one; ending `sid`, if it is hit, is the only thing its caller notices. */
  ghost predicate Telling(f: Ending, hit: bool, sid: u32, rank: nat, words: Desk -> seq<Delivery>) {
    forall d: Desk, t: u32 :: OnlyOn(d, sid, rank) ==>
      && OnlyOn(f(d, t), sid, rank)
      && Mine(f(d, t).log, rank) == Mine(d.log, rank) + (if t == sid && hit then words(d) else [])
      && words(f(d, t)) == if t == sid && hit then [] else words(d)
  }

  lemma {:induction false} EachTells(d: Desk, order: seq<u32>, f: Ending, hit: bool, sid: u32, rank: nat,
                                     words: Desk -> seq<Delivery>)
    requires Telling(f, hit, sid, rank, words) && OnlyOn(d, sid, rank)
    ensures Mine(Each(d, order, f).log, rank) == Mine(d.log, rank) + if sid in order && hit then words(d) else []
    decreases |order|
  {
    if order != [] {
      var d1 := f(d, order[0]);
      assert OnlyOn(d1, sid, rank);
      EachTells(d1, order[1..], f, hit, sid, rank, words);
    }
  }

  function Words(sid: u32, rank: nat, fault: Fault, body: bool): Desk -> seq<Delivery> {
    (d: Desk) => FarewellIf(d, sid, rank, fault, body)
  }

  lemma NotifyAllTells(d: Desk, order: seq<u32>, fault: Fault, sid: u32, rank: nat)
    requires OnlyOn(d, sid, rank)
    ensures Mine(NotifyAll(d, order, fault).log, rank)
            == Mine(d.log, rank) + if sid in order then FarewellIf(d, sid, rank, fault, true) else []
  {
    forall x: Desk, t: u32 | OnlyOn(x, sid, rank)
      ensures var y := Failing(fault)(x, t);
              && OnlyOn(y, sid, rank)
              && Mine(y.log, rank) == Mine(x.log, rank) + (if t == sid then FarewellIf(x, sid, rank, fault, true) else [])
              && FarewellIf(y, sid, rank, fault, true) == if t == sid then [] else FarewellIf(x, sid, rank, fault, true)
    {
      EndOther(x, sid, t, rank, fault, true);
      EndMine(x, sid, t, rank, fault, true);
    }
    EachTells(d, order, Failing(fault), true, sid, rank, Words(sid, rank, fault, true));
  }

  lemma RejectAboveTells(d: Desk, order: seq<u32>, last: u32, sid: u32, rank: nat)
    requires OnlyOn(d, sid, rank)
    ensures Mine(RejectAbove(d, order, last).log, rank)
            == Mine(d.log, rank) + if sid in order && sid > last then FarewellIf(d, sid, rank, GoAwayFault, false) else []
  {
    forall x: Desk, t: u32 | OnlyOn(x, sid, rank)
      ensures var y := Rejecting(last)(x, t);
              var words := FarewellIf(x, sid, rank, GoAwayFault, false);
              && OnlyOn(y, sid, rank)
              && Mine(y.log, rank) == Mine(x.log, rank) + (if t == sid && sid > last then words else [])
              && FarewellIf(y, sid, rank, GoAwayFault, false) == if t == sid && sid > last then [] else words
    {
      EndOther(x, sid, t, rank, GoAwayFault, false);
      EndMine(x, sid, t, rank, GoAwayFault, false);
    }
    EachTells(d, order, Rejecting(last), sid > last, sid, rank, Words(sid, rank, GoAwayFault, false));
  }

  /** The isolation law: for every event, what a pending request's caller is sent depends on that
      event and its own stream only. */
  lemma CallersAreIsolated(d: Desk, ev: H2Event, hash: HashOrder, status: HeaderList -> nat, sid: u32)
    requires DeskInv(d) && sid in d.pending && sid in hash(d.pending)
    ensures var p := d.pending[sid];
            Mine(OnEvent(d, ev, hash, status).log, p.rank) == Mine(d.log, p.rank) + Replied(p, sid, ev, status)
  {
    OnePending(d, sid);
    OwnEvents(d, ev, hash, status, sid);
  }

  lemma OwnEvents(d: Desk, ev: H2Event, hash: HashOrder, status: HeaderList -> nat, sid: u32)
    requires sid in d.pending && sid in hash(d.pending) && OnlyOn(d, sid, d.pending[sid].rank)
    ensures var p := d.pending[sid];
            Mine(OnEvent(d, ev, hash, status).log, p.rank) == Mine(d.log, p.rank) + Replied(p, sid, ev, status)
  {
    var p := d.pending[sid];
    match ev
    case ResponseHeaders(s, headers, endStream) =>
      if s in d.pending && !Interim(status(headers)) {
        HeadersTell(d, s, Response(status(headers), headers), endStream, p.rank);
      }
    case ResponseData(s, data, endStream) =>
      if s in d.pending {
        DataTells(d, s, data, endStream, p.rank);
      }
    case StreamReset(s, code) => EndMine(d, sid, s, p.rank, ResetFault(code), true);
    case GoAwayReceived(last, code, _) =>
      if code != 0 {
        NotifyAllTells(d, hash(d.pending), GoAwayFault, sid, p.rank);
      } else {
        RejectAboveTells(d, hash(d.pending), last, sid, p.rank);
      }
    case _ =>
  }

  lemma HeadersTell(d: Desk, s: u32, head: HeadReply, endStream: bool, rank: nat)
    requires s in d.pending
    ensures var p := d.pending[s];
            var d1 := Reply(d, s, head);
            var block := (if p.headers then [Head(p.rank, head)] else []) + (if endStream then [End(p.rank)] else []);
            Mine((if endStream then Finish(d1, s) else d1).log, rank)
            == Mine(d.log, rank) + if p.rank == rank then block else []
  {
    var p := d.pending[s];
    var d1 := Reply(d, s, head);
    var block := (if p.headers then [Head(p.rank, head)] else []) + (if endStream then [End(p.rank)] else []);
    assert (if endStream then Finish(d1, s) else d1).log == d.log + block;
    MineBlock(d.log, block, p.rank, rank);
  }

  lemma DataTells(d: Desk, s: u32, data: bytes, endStream: bool, rank: nat)
    requires s in d.pending
    ensures var r := d.pending[s].rank;
            var d1 := if data != [] then SendBody(d, s, Chunk(data)) else d;
            var block := (if data != [] then [Body(r, Chunk(data))] else []) + (if endStream then [End(r)] else []);
            Mine((if endStream then Finish(d1, s) else d1).log, rank)
            == Mine(d.log, rank) + if r == rank then block else []
  {
    var r := d.pending[s].rank;
    var d1 := if data != [] then SendBody(d, s, Chunk(data)) else d;
    var block := (if data != [] then [Body(r, Chunk(data))] else []) + (if endStream then [End(r)] else []);
    assert (if endStream then Finish(d1, s) else d1).log == d.log + block;
    MineBlock(d.log, block, r, rank);
  }

  // ---- Truncated bodies ---------------------------------------------------------------------------

  predicate IsFailure(x: Delivery) {
    (x.Head? && x.head.HeadFailed?) || (x.Body? && x.body.BodyFailed?)
  }

  predicate IsResponse(x: Delivery) {
    x.Head? && x.head.Response?
  }

  /** The caller has a response's headers, before or with these deliveries; the channels close, and
      nothing tells of a failure: what a complete response looks like. A caller whose header channel
      closes unused gets an error instead. */
  predicate LooksComplete(p: Pending, xs: seq<Delivery>) {
    && (!p.headers || exists i :: 0 <= i < |xs| && IsResponse(xs[i]))
    && End(p.rank) in xs && forall i :: 0 <= i < |xs| ==> !IsFailure(xs[i])
  }

  /** END_STREAM on this stream: with the final headers, or with data once the headers are out. */
  predicate PeerEnded(p: Pending, sid: u32, ev: H2Event, status: HeaderList -> nat) {
    || (ev.ResponseHeaders? && ev.streamId == sid && ev.endStream && !Interim(status(ev.headers)))
    || (ev.ResponseData? && ev.streamId == sid && ev.endStream && !p.headers)
  }

  /** A response looks complete exactly when the peer ended the stream after its headers, or a graceful
      GOAWAY cut it off after its headers: then the body is truncated without an error. What a response
      that looks complete is worth over a whole run, `CompleteResponses.CompleteIsWholeIff` says. */
  lemma LooksCompleteIff(p: Pending, sid: u32, ev: H2Event, status: HeaderList -> nat)
    ensures LooksComplete(p, Replied(p, sid, ev, status))
            <==> PeerEnded(p, sid, ev, status)
                 || (ev.GoAwayReceived? && ev.errorCode == 0 && sid > ev.lastStreamId && !p.headers)
  {
    var xs := Replied(p, sid, ev, status);
    match ev
    case StreamReset(s, code) =>
      if s == sid {
        assert IsFailure(xs[|xs| - 2]);
      }
    case GoAwayReceived(last, code, _) =>
      if code != 0 {
        assert IsFailure(xs[|xs| - 2]);
      } else if sid > last {
        assert xs[|xs| - 1] == End(p.rank);
        assert p.headers ==> IsFailure(xs[0]);
      }
    case ResponseHeaders(s, headers, endStream) =>
      if PeerEnded(p, sid, ev, status) {
        assert xs[|xs| - 1] == End(p.rank);
        assert p.headers ==> IsResponse(xs[0]);
      }
    case ResponseData(s, data, endStream) =>
      if s == sid && endStream {
        assert xs[|xs| - 1] == End(p.rank);
      }
    case _ =>
  }
}
