/** Credit stream by stream: what a step may send on one, and the receive window of one from the
    request that opened it to the peer's last byte. */
module StreamCredit {
  import opened Wire
  import opened Frames
  import opened Codec
  import opened HeaderBlocks
  import opened Streams
  import opened Connection
  import opened Sender
  import opened Policy
  import opened Engine
  import opened Runs
  import opened SendRuns
  import opened EngineRuns
  import opened EngineLaws
  import opened EngineTheorems

  // ---- Sending ------------------------------------------------------------------------------------

  function StreamAvailable(c: Conn, sid: u32): nat {
    if sid in c.streams then SendAvailable(c.streams[sid]) else 0
  }

  lemma SentInRun(fs: seq<H2Frame>, on: u32, fin: bool, sid: u32)
    requires DataRun(fs, on, fin)
    ensures SentOn(fs, sid) == if on == sid then Payloads(fs) else []
  {
    if on == sid {
      OnStreamAll(fs, sid);
    } else {
      OnStreamNone(fs, sid);
    }
  }

  lemma SomeWithin(s: SendState, on: u32, data: bytes, fin: bool, sid: u32)
    requires s.conn.remote.maxFrameSize > 0 && data != []
    ensures |SentOn(BuildData(s, on, data, fin).1, sid)| == if on == sid then Allowed(s.conn, on, data) else 0
  {
    BuildDataIsGreedy(s, on, data, fin);
    var fs := BuildData(s, on, data, fin).1;
    SentInRun(fs, on, fin && Min(|data|, SendAvailableOn(s.conn, on)) == |data|, sid);
  }

  lemma SomeTakes(s: SendState, on: u32, data: bytes, fin: bool, sid: u32)
    requires s.conn.remote.maxFrameSize > 0 && data != []
    ensures var t := BuildData(s, on, data, fin).0;
            && StreamAvailable(t.conn, sid) == StreamAvailable(s.conn, sid) - (if on == sid then Allowed(s.conn, on, data) else 0)
            && t.conn.remote == s.conn.remote
  {
    BuildDataConn(s, on, data, fin);
  }

  /** One body takes from its own stream's window what it sends, and nothing from any other's. */
  lemma BuildWithin(s: SendState, on: u32, data: bytes, fin: bool, sid: u32)
    requires s.conn.remote.maxFrameSize > 0
    ensures var (t, fs) := BuildData(s, on, data, fin);
            && |SentOn(fs, sid)| + StreamAvailable(t.conn, sid) == StreamAvailable(s.conn, sid)
            && t.conn.remote == s.conn.remote
  {
    if data == [] {
      if fin {
        EmptyFrame(on, sid);
      }
    } else {
      SomeWithin(s, on, data, fin, sid);
      SomeTakes(s, on, data, fin, sid);
    }
  }

  lemma EmptyPayload(f: H2Frame)
    requires f.Data? && f.data == []
    ensures Payloads([f]) == []
  {
    assert [f][..0] == [];
  }

  lemma EmptyFrame(on: u32, sid: u32)
    ensures SentOn([Data(on, [], true, None)], sid) == []
  {
    var fs := [Data(on, [], true, None)];
    if on == sid {
      OnStreamAll(fs, sid);
      EmptyPayload(fs[0]);
    } else {
      OnStreamNone(fs, sid);
    }
  }

  lemma SentAppend(a: seq<H2Frame>, b: seq<H2Frame>, sid: u32)
    ensures SentOn(a + b, sid) == SentOn(a, sid) + SentOn(b, sid)
  {
    OnStreamAppend(a, b, sid);
    PayloadsAppend(OnStream(a, sid), OnStream(b, sid));
  }

  lemma {:induction false} DrainWithin(s: SendState, todo: seq<PendingBody>, sid: u32)
    requires s.conn.remote.maxFrameSize > 0
    ensures |SentOn(Drain(s, todo).1, sid)| <= StreamAvailable(s.conn, sid)
    decreases |todo|
  {
    if todo != [] {
      var (t, fs) := BuildData(s, todo[0].streamId, todo[0].data, todo[0].endStream);
      BuildWithin(s, todo[0].streamId, todo[0].data, todo[0].endStream, sid);
      DrainWithin(t, todo[1..], sid);
      SentAppend(fs, Drain(t, todo[1..]).1, sid);
    }
  }

  /** What a stream may be sent in a step: its window with the increment the frame brings. */
  function Credit(e: Engine, f: H2Frame, sid: u32): nat {
    if sid in e.send.conn.streams
    then Max(0, e.send.conn.streams[sid].sendWindow + Granted(GrantsOf(e, f), sid))
    else 0
  }

  lemma NoData(fs: seq<H2Frame>, sid: u32)
    requires Bodiless(fs)
    ensures SentOn(fs, sid) == []
  {
    OnStreamNone(fs, sid);
  }

  lemma UpdateWithin(e: Engine, on: u32, increment: u32, sid: u32)
    requires ValidEngine(e) && (on in e.send.conn.streams ==> InRange(e.send.conn.streams[on])) && 0 !in e.send.conn.streams
    requires -I32_MAX <= e.send.conn.sendWindow
    ensures |SentOn(HandleWindowUpdate(e, on, increment).1.frames, sid)| <= Credit(e, WindowUpdate(on, increment), sid)
  {
    var c := e.send.conn;
    var fs := HandleWindowUpdate(e, on, increment).1.frames;
    GrantedPush([], Grant(on, increment), sid);
    assert [] + [Grant(on, increment)] == [Grant(on, increment)];
    if increment != 0 && on == 0 && UpdateConnSend(c, increment).Some? {
      DrainWithin(SendState(UpdateConnSend(c, increment).value, []), e.send.pending, sid);
    } else if increment != 0 && on != 0 && on in c.streams && UpdateSend(c.streams[on], increment).Some? {
      DrainWithin(SendState(WithStream(c, on, UpdateSend(c.streams[on], increment).value), []), e.send.pending, sid);
    } else if increment != 0 && on != 0 && on !in c.streams {
      DrainWithin(SendState(c, []), e.send.pending, sid);
    } else {
      NoData(fs, sid);
    }
  }

  lemma ReceiveWithin(e: Engine, f: H2Frame, decoded: Option<HeaderList>, e': Engine, out: Output, sid: u32)
    requires ValidEngine(e) && Handled(e, f, decoded, e', out)
    requires forall t :: t in e.send.conn.streams ==> InRange(e.send.conn.streams[t]) && t != 0
    requires 0 <= e.send.conn.sendWindow
    ensures |SentOn(out.frames, sid)| <= Credit(e, f, sid)
  {
    if f.WindowUpdate? {
      UpdateWithin(e, f.streamId, f.increment, sid);
    } else {
      OthersSendNoData(e, f, decoded, e', out);
      NoData(out.frames, sid);
    }
  }

  predicate Bodiless(fs: seq<H2Frame>) {
    forall i :: 0 <= i < |fs| ==> !(fs[i].Data? || fs[i].Headers? || fs[i].Continuation?)
  }

  lemma CreditBodiless(sid: u32, a: Option<nat>, b: Option<nat>)
    ensures Bodiless(CreditFrame(0, a) + CreditFrame(sid, b))
  {
  }

  lemma AcceptBodiless(e: Engine, c: Conn, on: u32, data: bytes, endStream: bool, len: nat)
    requires ValidEngine(e) && c.remote == e.send.conn.remote
    requires on in c.streams ==> ConsumeRecv(c.streams[on], len).Some?
    ensures Bodiless(AcceptData(e, c, on, data, endStream, len).1.frames)
  {
    var c1 := if on in c.streams
              then var s := ConsumeRecv(c.streams[on], len).value;
                   WithStream(c, on, if endStream then RecvEndStream(s) else s)
              else c;
    var initial := if on in c.streams then c.streams[on].initialWindow else DEFAULT_INITIAL_WINDOW;
    var e1 := e.WithConn(c1);
    if len > 0 {
      var (acc, a) := OnDataReceived(e.policy, e.accumulated, 0, len, e.initialRecvWindow);
      CreditBodiless(on, a, OnDataReceived(e.policy, acc, on, len, initial).1);
    }
  }

  lemma DataIsAnsweredBodiless(e: Engine, on: u32, data: bytes, endStream: bool, padding: Option<byte>)
    requires ValidEngine(e)
    ensures Bodiless(HandleData(e, on, data, endStream, padding).1.frames)
  {
    var len := FlowLength(data, padding);
    var c := ConsumeConnRecv(e.send.conn, len);
    if c.Some? && !Rejects(c.value, on, len) {
      AcceptBodiless(e, c.value, on, data, endStream, len);
    }
  }

  lemma OthersSendNoData(e: Engine, f: H2Frame, decoded: Option<HeaderList>, e': Engine, out: Output)
    requires ValidEngine(e) && Handled(e, f, decoded, e', out) && !f.WindowUpdate?
    ensures Bodiless(out.frames)
  {
    if f.Data? {
      DataIsAnsweredBodiless(e, f.streamId, f.data, f.endStream, f.padding);
    }
  }

  /** A new stream may be sent what the peer's initial size allows. */
  lemma AskWithin(e: Engine, r: Request, sid: u32)
    requires ValidEngine(e)
    ensures |SentOn(SendRequest(e, r).1, sid)|
            <= if sid == e.send.conn.nextStreamId then e.send.conn.remote.initialWindowSize else StreamAvailable(e.send.conn, sid)
    ensures sid != e.send.conn.nextStreamId ==> SentOn(SendRequest(e, r).1, sid) == []
  {
    var c, on := e.send.conn, e.send.conn.nextStreamId;
    var head := SplitBlock(on, r.block, r.body == [], r.priority, c.remote.maxFrameSize);
    SplitHeadOk(on, r.block, r.priority, c.remote.maxFrameSize, r.body);
    HeadSendsNothing(head, on, sid);
    if r.body != [] {
      var s := e.send.(conn := OpenStream(c));
      BuildWithin(s, on, r.body, true, sid);
      BuildDataIsGreedy(s, on, r.body, true);
      SentInRun(BuildData(s, on, r.body, true).1, on, Min(|r.body|, SendAvailableOn(s.conn, on)) == |r.body|, sid);
      SentAppend(head, BuildData(s, on, r.body, true).1, sid);
    }
  }

  lemma HeadSendsNothing(head: seq<H2Frame>, on: u32, sid: u32)
    requires forall i :: 0 <= i < |head| ==> Belongs(head[i], on) && !head[i].Data?
    ensures SentOn(head, sid) == []
  {
    if on == sid {
      OnStreamAll(head, sid);
      PayloadsNone(head);
    } else {
      OnStreamNone(head, sid);
    }
  }

  function StepCredit(w: World, l: Label, sid: u32): nat {
    match l
    case Receive(f, _, _) => Credit(w.engine, f, sid)
    case Ask(_) =>
      if sid == w.engine.send.conn.nextStreamId then w.engine.send.conn.remote.initialWindowSize else 0
  }

  lemma TableFacts(w: World)
    requires Inv(w)
    ensures ValidEngine(w.engine) && 0 <= w.engine.send.conn.sendWindow
    ensures forall t :: t in w.engine.send.conn.streams ==> InRange(w.engine.send.conn.streams[t]) && t != 0 && t in w.reqs
  {
  }

  /** Stream flow control in every step of every run: the bytes a step sends on a stream are within that
      stream's window, the increment that came with the step included; a window that SETTINGS drove
      below zero lets nothing out. */
  lemma StreamNeverOverspends(w: World, l: Label, w': World, sid: u32)
    requires Reachable(w) && Next(w, l, w')
    ensures |SentOn(w'.out, sid)| <= |SentOn(w.out, sid)| + StepCredit(w, l, sid)
  {
    ReachableInv(w);
    TableFacts(w);
    match l
    case Ask(r) =>
      AskWithin(w.engine, r, sid);
      SentAppend(w.out, SendRequest(w.engine, r).1, sid);
    case Receive(f, decoded, o) =>
      ReceiveWithin(w.engine, f, decoded, w'.engine, o, sid);
      SentAppend(w.out, o.frames, sid);
  }

  // ---- Receiving ----------------------------------------------------------------------------------

  predicate Listens(c: Conn, sid: u32) {
    sid in c.streams && c.streams[sid].state.CanReceive()
  }

  predicate Receiving(e: Engine, sid: u32) {
    Listens(e.send.conn, sid)
  }

  /** The stream's receive window with what the policy holds back of it. */
  function Account(e: Engine, sid: u32): int
    requires sid in e.send.conn.streams
  {
    e.send.conn.streams[sid].recvWindow + Held(e.accumulated, sid)
  }

  /** No negative window, and no holding back without a threshold. */
  predicate Regular(e: Engine, sid: u32) {
    && sid in e.send.conn.streams && 0 <= e.send.conn.streams[sid].recvWindow
    && (e.policy.Immediate? ==> e.accumulated == map[])
  }

  /** An account that an announced increment cannot overflow. */
  predicate Exact(e: Engine, sid: u32) {
    Regular(e, sid) && Account(e, sid) <= I32_MAX
  }

  /** The account stays, or shrinks if an increment announced does not fit the window. */
  predicate SameAccount(e: Engine, e': Engine, sid: u32)
    requires sid in e.send.conn.streams && sid in e'.send.conn.streams
  {
    && Account(e', sid) <= Account(e, sid) && (Account(e, sid) <= I32_MAX ==> Account(e', sid) == Account(e, sid))
    && (e.send.conn.streams[sid].recvWindow == 0 ==> e'.send.conn.streams[sid].recvWindow == 0)
  }

  lemma CreditConnAccount(e: Engine, len: nat, sid: u32)
    requires ValidEngine(e) && sid != 0
    ensures var e' := CreditConn(e, len).0;
            && e'.send.conn.streams == e.send.conn.streams && e'.policy == e.policy
            && Held(e'.accumulated, sid) == Held(e.accumulated, sid)
            && (e.policy.Immediate? && e.accumulated == map[] ==> e'.accumulated == map[])
            && ValidEngine(e')
  {
  }

  /** The stream's own bytes are announced or held; another stream's leave it alone. */
  lemma CreditStreamAccount(e: Engine, on: u32, len: nat, initial: u32, sid: u32)
    requires ValidEngine(e) && len > 0 && (e.policy.Immediate? ==> e.accumulated == map[])
    ensures var e' := CreditStream(e, on, len, initial).0;
            && e'.policy == e.policy && (e'.policy.Immediate? ==> e'.accumulated == map[])
            && (sid in e'.send.conn.streams <==> sid in e.send.conn.streams)
            && (sid in e.send.conn.streams ==>
                  var s, s' := e.send.conn.streams[sid], e'.send.conn.streams[sid];
                  && s'.state == s.state && s'.recvWindow >= Min(s.recvWindow, 0)
                  && (0 <= s.recvWindow ==>
                        var paid := Account(e, sid) + (if on == sid then len else 0);
                        && Account(e', sid) <= paid && (paid <= I32_MAX ==> Account(e', sid) == paid)
                        && (on != sid ==> s' == s)))
  {
  }

  lemma ReturnAccount(e: Engine, on: u32, len: nat, initial: u32, sid: u32)
    requires ValidEngine(e) && sid != 0 && (e.policy.Immediate? ==> e.accumulated == map[])
    ensures var e' := ReturnCredit(e, on, len, initial).0;
            && e'.policy == e.policy && (e'.policy.Immediate? ==> e'.accumulated == map[])
            && (sid in e'.send.conn.streams <==> sid in e.send.conn.streams)
            && (sid in e.send.conn.streams ==>
                  var s, s' := e.send.conn.streams[sid], e'.send.conn.streams[sid];
                  && s'.state == s.state && s'.recvWindow >= Min(s.recvWindow, 0)
                  && (0 <= s.recvWindow ==>
                        var paid := Account(e, sid) + (if on == sid then len else 0);
                        && Account(e', sid) <= paid && (paid <= I32_MAX ==> Account(e', sid) == paid)
                        && (on != sid || len == 0 ==> s' == s)))
  {
    if len > 0 {
      CreditConnAccount(e, len, sid);
      CreditStreamAccount(CreditConn(e, len).0, on, len, initial, sid);
    }
  }

  lemma AcceptAccount(e: Engine, c: Conn, on: u32, data: bytes, endStream: bool, len: nat, sid: u32)
    requires ValidEngine(e) && on != 0 && sid != 0 && (e.policy.Immediate? ==> e.accumulated == map[])
    requires ConsumeConnRecv(e.send.conn, len) == Some(c) && !Rejects(c, on, len)
    requires Receiving(AcceptData(e, c, on, data, endStream, len).0, sid)
    ensures var e' := AcceptData(e, c, on, data, endStream, len).0;
            && Receiving(e, sid) && (e'.policy.Immediate? ==> e'.accumulated == map[])
            && (Regular(e, sid) ==> Regular(e', sid) && SameAccount(e, e', sid))
  {
    var c1 := if on in c.streams
              then var s := ConsumeRecv(c.streams[on], len).value;
                   WithStream(c, on, if endStream then RecvEndStream(s) else s)
              else c;
    var initial := if on in c.streams then c.streams[on].initialWindow else DEFAULT_INITIAL_WINDOW;
    ReturnAccount(e.WithConn(c1), on, len, initial, sid);
  }

  lemma DataAccount(e: Engine, on: u32, data: bytes, endStream: bool, padding: Option<byte>, sid: u32)
    requires ValidEngine(e) && on != 0 && sid != 0 && (e.policy.Immediate? ==> e.accumulated == map[])
    requires Receiving(HandleData(e, on, data, endStream, padding).0, sid)
    ensures var e' := HandleData(e, on, data, endStream, padding).0;
            && Receiving(e, sid) && (e'.policy.Immediate? ==> e'.accumulated == map[])
            && (Regular(e, sid) ==> Regular(e', sid) && SameAccount(e, e', sid))
  {
    var len := FlowLength(data, padding);
    var c := ConsumeConnRecv(e.send.conn, len);
    if c.Some? && !Rejects(c.value, on, len) {
      AcceptAccount(e, c.value, on, data, endStream, len, sid);
    }
  }

  /** Streams that receive after a step received before it, with the same window. */
  predicate SameReceivers(c: Conn, c': Conn) {
    forall sid :: sid in c'.streams && c'.streams[sid].state.CanReceive() ==>
      && sid in c.streams && c.streams[sid].state.CanReceive()
      && c'.streams[sid].recvWindow == c.streams[sid].recvWindow
  }

  lemma BuildReceivers(s: SendState, on: u32, data: bytes, fin: bool)
    requires s.conn.remote.maxFrameSize > 0
    ensures SameReceivers(s.conn, BuildData(s, on, data, fin).0.conn)
    ensures BuildData(s, on, data, fin).0.conn.remote == s.conn.remote
  {
    if data != [] {
      BuildDataConn(s, on, data, fin);
    }
  }

  lemma {:induction false} DrainReceivers(s: SendState, todo: seq<PendingBody>)
    requires s.conn.remote.maxFrameSize > 0
    ensures SameReceivers(s.conn, Drain(s, todo).0.conn)
    decreases |todo|
  {
    if todo != [] {
      BuildReceivers(s, todo[0].streamId, todo[0].data, todo[0].endStream);
      DrainReceivers(BuildData(s, todo[0].streamId, todo[0].data, todo[0].endStream).0, todo[1..]);
    }
  }

  lemma UpdateReceivers(e: Engine, on: u32, increment: u32)
    requires ValidEngine(e)
    ensures SameReceivers(e.send.conn, HandleWindowUpdate(e, on, increment).0.send.conn)
  {
    var c := e.send.conn;
    if increment != 0 && on == 0 && UpdateConnSend(c, increment).Some? {
      DrainReceivers(SendState(UpdateConnSend(c, increment).value, []), e.send.pending);
    } else if increment != 0 && on != 0 && on in c.streams && UpdateSend(c.streams[on], increment).Some? {
      DrainReceivers(SendState(WithStream(c, on, UpdateSend(c.streams[on], increment).value), []), e.send.pending);
    } else if increment != 0 && on != 0 && on !in c.streams {
      DrainReceivers(SendState(c, []), e.send.pending);
    }
  }

  lemma SettingsReceivers(e: Engine, ack: bool, ps: seq<SettingsParameter>, e': Engine, out: Output)
    requires SettingsHandled(e, ack, ps, e', out)
    ensures SameReceivers(e.send.conn, e'.send.conn)
  {
    if !ack {
      var c', ok :| SettingsApplied(e.send.conn, ps, c', ok) && (e', out) == SettingsOutcome(e, c', ok);
      var (remote, all) := ApplyParams(e.send.conn.remote, ps);
      if all {
        var done: set<u32> :| VisitEnds(e.send.conn, remote, done, c', ok);
      }
    }
  }

  lemma OtherReceivers(e: Engine, f: H2Frame, decoded: Option<HeaderList>, e': Engine, out: Output)
    requires ValidEngine(e) && Handled(e, f, decoded, e', out) && !f.Data?
    ensures SameReceivers(e.send.conn, e'.send.conn)
  {
    if f.WindowUpdate? {
      UpdateReceivers(e, f.streamId, f.increment);
    } else if f.Settings? {
      SettingsReceivers(e, f.ack, f.settings, e', out);
    }
  }

  /** No inbound frame moves the account of a stream that goes on receiving, and none refills an
      exhausted window. */
  lemma HandledAccount(e: Engine, f: H2Frame, decoded: Option<HeaderList>, e': Engine, out: Output, sid: u32)
    requires ValidEngine(e) && Handled(e, f, decoded, e', out) && (f.Data? ==> f.streamId != 0)
    requires sid != 0 && Receiving(e', sid) && (e.policy.Immediate? ==> e.accumulated == map[])
    ensures Receiving(e, sid) && (e'.policy.Immediate? ==> e'.accumulated == map[])
    ensures Regular(e, sid) ==> Regular(e', sid) && SameAccount(e, e', sid)
  {
    if f.Data? {
      DataAccount(e, f.streamId, f.data, f.endStream, f.padding, sid);
    } else {
      OtherReceivers(e, f, decoded, e', out);
      HandledFixed(e, f, decoded, e', out);
    }
  }

  /** A request leaves other streams' accounts alone and opens its own at the size we announced,
      plus whatever came in on the id before it was opened. */
  lemma AskAccount(e: Engine, r: Request, sid: u32)
    requires ValidEngine(e) && Receiving(SendRequest(e, r).0, sid)
    ensures var e' := SendRequest(e, r).0;
            && e'.accumulated == e.accumulated && e'.policy == e.policy
            && if sid == e.send.conn.nextStreamId
               then e'.send.conn.streams[sid].recvWindow == AsI32(EffectiveLocalWindow(e.send.conn))
               else Receiving(e, sid) && e'.send.conn.streams[sid].recvWindow == e.send.conn.streams[sid].recvWindow
  {
    var c := OpenStream(e.send.conn);
    if r.body != [] {
      BuildReceivers(e.send.(conn := c), e.send.conn.nextStreamId, r.body, true);
    }
  }

  predicate Opens(w: World, l: Label, sid: u32) {
    l.Ask? && sid == w.engine.send.conn.nextStreamId
  }

  /** What the stream's account starts with. */
  function OpeningBalance(e: Engine, sid: u32): nat {
    EffectiveLocalWindow(e.send.conn) + Held(e.accumulated, sid)
  }

  lemma NextAccount(w: World, l: Label, w': World, sid: u32)
    requires Inv(w) && Next(w, l, w') && Receiving(w'.engine, sid) && sid in w.reqs
    ensures Receiving(w.engine, sid)
    ensures Regular(w.engine, sid) ==> Regular(w'.engine, sid) && SameAccount(w.engine, w'.engine, sid)
  {
    TableFacts(w);
    match l
    case Ask(r) =>
      FreshId(w.engine.send.conn, w.reqs, w.opens);
      AskAccount(w.engine, r, sid);
    case Receive(f, decoded, o) => HandledAccount(w.engine, f, decoded, w'.engine, o, sid);
  }

  lemma OpensRegular(w: World, l: Label, w': World, sid: u32)
    requires Inv(w) && Next(w, l, w') && Opens(w, l, sid) && Receiving(w'.engine, sid)
    ensures Regular(w'.engine, sid) && Account(w'.engine, sid) == OpeningBalance(w.engine, sid)
  {
    AskAccount(w.engine, l.request, sid);
  }

  /** The ledger of a stream opened with this balance. */
  ghost predicate Ledger(w: World, sid: u32, balance: nat) {
    && sid in w.reqs
    && (Receiving(w.engine, sid) ==>
          && Regular(w.engine, sid) && Account(w.engine, sid) <= balance
          && (balance <= I32_MAX ==> Account(w.engine, sid) == balance))
  }

  lemma LedgerOpens(w: World, l: Label, w': World, sid: u32)
    requires Inv(w) && Next(w, l, w') && Opens(w, l, sid)
    ensures Ledger(w', sid, OpeningBalance(w.engine, sid))
  {
    if Receiving(w'.engine, sid) {
      OpensRegular(w, l, w', sid);
    }
  }

  lemma LedgerStays(w: World, l: Label, w': World, sid: u32, balance: nat)
    requires Inv(w) && Next(w, l, w') && Ledger(w, sid, balance)
    ensures Ledger(w', sid, balance)
  {
    if Receiving(w'.engine, sid) {
      NextAccount(w, l, w', sid);
    }
  }

  ghost predicate StepAt(ws: seq<World>, ls: seq<Label>, j: nat) {
    j < |ls| && |ws| == |ls| + 1 && Inv(ws[j]) && Next(ws[j], ls[j], ws[j + 1])
  }

  lemma LedgerFirst(ws: seq<World>, ls: seq<Label>, a: nat, sid: u32)
    requires StepAt(ws, ls, a) && Opens(ws[a], ls[a], sid)
    ensures Ledger(ws[a + 1], sid, OpeningBalance(ws[a].engine, sid))
  {
    LedgerOpens(ws[a], ls[a], ws[a + 1], sid);
  }

  lemma LedgerStep(ws: seq<World>, ls: seq<Label>, j: nat, sid: u32, balance: nat)
    requires StepAt(ws, ls, j) && Ledger(ws[j], sid, balance)
    ensures Ledger(ws[j + 1], sid, balance)
  {
    LedgerStays(ws[j], ls[j], ws[j + 1], sid, balance);
  }

  lemma RunSteps(ws: seq<World>, ls: seq<Label>, profile: seq<SettingsParameter>, windowUpdate: u32, blockLimit: nat,
                 policy: FlowPolicy, j: nat)
    requires Run(ws, ls, profile, windowUpdate, blockLimit, policy) && j < |ls|
    ensures StepAt(ws, ls, j)
  {
    RunInv(ws, ls, profile, windowUpdate, blockLimit, policy, j);
  }

  /** What each step keeps holds from then on. */
  lemma {:induction false} KeptAlong(ws: seq<World>, keeps: World -> bool, a: nat, i: nat)
    requires a <= i < |ws| && keeps(ws[a])
    requires forall j {:trigger ws[j]} :: a <= j < i && keeps(ws[j]) ==> keeps(ws[j + 1])
    ensures keeps(ws[i])
    decreases i
  {
    if a < i {
      KeptAlong(ws, keeps, a, i - 1);
    }
  }

  lemma LedgerNext(ws: seq<World>, ls: seq<Label>, profile: seq<SettingsParameter>, windowUpdate: u32, blockLimit: nat,
                   policy: FlowPolicy, j: nat, sid: u32, balance: nat)
    requires Run(ws, ls, profile, windowUpdate, blockLimit, policy) && j < |ls| && Ledger(ws[j], sid, balance)
    ensures Ledger(ws[j + 1], sid, balance)
  {
    RunSteps(ws, ls, profile, windowUpdate, blockLimit, policy, j);
    LedgerStep(ws, ls, j, sid, balance);
  }

  lemma LedgerAlong(ws: seq<World>, ls: seq<Label>, profile: seq<SettingsParameter>, windowUpdate: u32,
                    blockLimit: nat, policy: FlowPolicy, a: nat, i: nat, sid: u32, balance: nat)
    requires Run(ws, ls, profile, windowUpdate, blockLimit, policy) && a <= i < |ws| && Ledger(ws[a], sid, balance)
    ensures Ledger(ws[i], sid, balance)
  {
    var keeps := (w: World) => Ledger(w, sid, balance);
    forall j | a <= j < i && keeps(ws[j])
      ensures keeps(ws[j + 1])
    {
      LedgerNext(ws, ls, profile, windowUpdate, blockLimit, policy, j, sid, balance);
    }
    KeptAlong(ws, keeps, a, i);
  }

  /** The receive ledger of a stream: as long as the peer may send on it, its window and the bytes held
      back of it add up to the size we announced when it was opened, plus bytes that came in on the
      id before that. A sum beyond 2^31-1 can only lose; `AccountKeptIff` says when. */
  lemma StreamReceiveLedger(ws: seq<World>, ls: seq<Label>, profile: seq<SettingsParameter>, windowUpdate: u32,
                            blockLimit: nat, policy: FlowPolicy, a: nat, i: nat, sid: u32)
    requires Run(ws, ls, profile, windowUpdate, blockLimit, policy) && a < i < |ws| && Opens(ws[a], ls[a], sid)
    requires Receiving(ws[i].engine, sid)
    ensures Account(ws[i].engine, sid) <= OpeningBalance(ws[a].engine, sid)
    ensures OpeningBalance(ws[a].engine, sid) <= I32_MAX ==>
              Account(ws[i].engine, sid) == OpeningBalance(ws[a].engine, sid)
    ensures 0 <= ws[i].engine.send.conn.streams[sid].recvWindow
  {
    RunSteps(ws, ls, profile, windowUpdate, blockLimit, policy, a);
    LedgerFirst(ws, ls, a, sid);
    LedgerAlong(ws, ls, profile, windowUpdate, blockLimit, policy, a + 1, i, sid, OpeningBalance(ws[a].engine, sid));
  }

  // ---- Stalls -------------------------------------------------------------------------------------

  /** Accepted, not the last, and with something in it. */
  predicate Takes(e: Engine, sid: u32, data: bytes, padding: Option<byte>) {
    var len := FlowLength(data, padding);
    && Receiving(e, sid) && 0 < len <= e.send.conn.recvWindow && len <= e.send.conn.streams[sid].recvWindow
  }

  /** Exactly when a frame leaves its stream's account as it was: if the account fits the window's 31
      bits, or nothing is announced; an increment that does not fit is announced and not applied. */
  lemma AccountKeptIff(e: Engine, sid: u32, data: bytes, padding: Option<byte>)
    requires ValidEngine(e) && sid != 0 && Regular(e, sid) && Takes(e, sid, data, padding)
    ensures var e' := HandleData(e, sid, data, false, padding).0;
            && Receiving(e', sid)
            && (Account(e', sid) == Account(e, sid)
                <==> || Account(e, sid) <= I32_MAX
                     || (e.policy.Threshold? && Held(e.accumulated, sid) + FlowLength(data, padding)
                                                < e.policy.limit(e.send.conn.streams[sid].initialWindow)))
  {
    var len := FlowLength(data, padding);
    var s := e.send.conn.streams[sid];
    var c := ConsumeConnRecv(e.send.conn, len).value;
    var e1 := e.WithConn(WithStream(c, sid, ConsumeRecv(s, len).value));
    CreditConnAccount(e1, len, sid);
    PayOrLose(CreditConn(e1, len).0, sid, len, s.initialWindow);
  }

  lemma PayOrLose(e: Engine, sid: u32, len: nat, initial: u32)
    requires ValidEngine(e) && sid in e.send.conn.streams && len > 0 && 0 <= e.send.conn.streams[sid].recvWindow
    requires e.policy.Immediate? ==> e.accumulated == map[]
    ensures var e' := CreditStream(e, sid, len, initial).0;
            && sid in e'.send.conn.streams && e'.send.conn.streams[sid].state == e.send.conn.streams[sid].state
            && (Account(e', sid) == Account(e, sid) + len
                <==> || Account(e, sid) + len <= I32_MAX
                     || (e.policy.Threshold? && Held(e.accumulated, sid) + len < e.policy.limit(initial)))
  {
  }

  /** The threshold is taken of the peer's initial size, not of ours. So a stream is used up with nothing
      announced, exactly when the frame fills its window and that threshold lies above the stream's
      whole account; the peer then cannot send another byte, and no frame of its changes that. */
  lemma StreamStallsIff(e: Engine, sid: u32, data: bytes, padding: Option<byte>)
    requires ValidEngine(e) && sid != 0 && Exact(e, sid) && Takes(e, sid, data, padding)
    ensures var (e', out) := HandleData(e, sid, data, false, padding);
            var s := e.send.conn.streams[sid];
            && Receiving(e', sid)
            && (e'.send.conn.streams[sid].recvWindow == 0
                <==> && FlowLength(data, padding) == s.recvWindow
                     && e.policy.Threshold? && e.policy.limit(s.initialWindow) > Account(e, sid))
            && (e'.send.conn.streams[sid].recvWindow == 0 ==>
                  forall i :: 0 <= i < |out.frames| ==> !(out.frames[i].WindowUpdate? && out.frames[i].streamId == sid))
  {
    var len := FlowLength(data, padding);
    var s := e.send.conn.streams[sid];
    var c := ConsumeConnRecv(e.send.conn, len).value;
    var e1 := e.WithConn(WithStream(c, sid, ConsumeRecv(s, len).value));
    CreditConnAccount(e1, len, sid);
    FillOrNot(CreditConn(e1, len).0, sid, len, s.initialWindow);
  }

  /** The stream's credit after its window took `len` bytes. */
  lemma FillOrNot(e: Engine, sid: u32, len: nat, initial: u32)
    requires ValidEngine(e) && sid in e.send.conn.streams && len > 0 && sid != 0
    requires 0 <= e.send.conn.streams[sid].recvWindow && Account(e, sid) + len <= I32_MAX
    requires e.policy.Immediate? ==> e.accumulated == map[]
    ensures var (e', fs) := CreditStream(e, sid, len, initial);
            && sid in e'.send.conn.streams && e'.send.conn.streams[sid].state == e.send.conn.streams[sid].state
            && (e'.send.conn.streams[sid].recvWindow == 0
                <==> && e.send.conn.streams[sid].recvWindow == 0
                     && e.policy.Threshold? && e.policy.limit(initial) > Held(e.accumulated, sid) + len)
            && (e'.send.conn.streams[sid].recvWindow == 0 ==> fs == [])
  {
  }

  /** The connection's credit after its window took `len` bytes; `whole` is what the drops have left. */
  lemma ConnFillOrNot(e: Engine, len: nat, whole: nat)
    requires ValidEngine(e) && len > 0 && 0 <= e.send.conn.recvWindow
    requires e.send.conn.recvWindow + Held(e.accumulated, 0) + len == whole <= I32_MAX
    ensures CreditConn(e, len).0.send.conn.recvWindow == 0
            <==> && e.send.conn.recvWindow == 0
                 && e.policy.Threshold? && e.policy.limit(e.initialRecvWindow) > whole
    ensures e.policy.Threshold? && e.policy.limit(e.initialRecvWindow) > whole ==>
              CreditConn(e, len).1 == [] && CreditConn(e, len).0.send.conn.recvWindow == e.send.conn.recvWindow
  {
  }

  lemma StreamCreditKeepsConn(e: Engine, sid: u32, len: nat, initial: u32)
    requires ValidEngine(e)
    ensures CreditStream(e, sid, len, initial).0.send.conn.recvWindow == e.send.conn.recvWindow
  {
  }

  /** After both windows took the frame, only the connection's own credit moves its window. */
  lemma AcceptConn(e: Engine, c: Conn, sid: u32, data: bytes, endStream: bool, len: nat)
    requires ValidEngine(e) && len > 0 && ConsumeConnRecv(e.send.conn, len) == Some(c) && !Rejects(c, sid, len)
    ensures AcceptData(e, c, sid, data, endStream, len).0.send.conn.recvWindow
            == CreditConn(e.WithConn(c), len).0.send.conn.recvWindow
  {
    var c1 := if sid in c.streams
              then var s := ConsumeRecv(c.streams[sid], len).value;
                   WithStream(c, sid, if endStream then RecvEndStream(s) else s)
              else c;
    var initial := if sid in c.streams then c.streams[sid].initialWindow else DEFAULT_INITIAL_WINDOW;
    StreamCreditKeepsConn(CreditConn(e.WithConn(c1), len).0, sid, len, initial);
  }

  /** What the drops have left of the connection window no longer reaches its threshold. */
  predicate Starved(e: Engine, dropped: nat) {
    || dropped == e.initialRecvWindow
    || (e.policy.Threshold? && e.policy.limit(e.initialRecvWindow) > e.initialRecvWindow - dropped)
  }

  /** The same for the connection, whose threshold is of its own window while dropped bytes are missing
      from its account: it is used up with nothing announced, exactly when the frame fills its window
      and the threshold lies above the initial window less the bytes dropped. */
  lemma ConnectionStallsIff(e: Engine, sid: u32, data: bytes, endStream: bool, padding: Option<byte>, dropped: nat)
    requires ValidEngine(e) && sid != 0 && RecvInv(e, dropped)
    requires var len := FlowLength(data, padding); 0 < len <= e.send.conn.recvWindow && !Rejects(e.send.conn, sid, len)
    ensures HandleData(e, sid, data, endStream, padding).0.send.conn.recvWindow == 0
            <==> && FlowLength(data, padding) == e.send.conn.recvWindow
                 && e.policy.Threshold? && e.policy.limit(e.initialRecvWindow) > e.initialRecvWindow - dropped
    ensures HandleData(e, sid, data, endStream, padding).0.send.conn.recvWindow == 0
            <==> FlowLength(data, padding) == e.send.conn.recvWindow && Starved(e, dropped)
  {
    var len := FlowLength(data, padding);
    var c := ConsumeConnRecv(e.send.conn, len).value;
    AcceptConn(e, c, sid, data, endStream, len);
    ConnFillOrNot(e.WithConn(c), len, e.initialRecvWindow - dropped);
  }

  // ---- Starvation ---------------------------------------------------------------------------------

  /** No credit for the connection among these frames. */
  predicate NoConnCredit(fs: seq<H2Frame>) {
    forall i :: 0 <= i < |fs| ==> !(fs[i].WindowUpdate? && fs[i].streamId == 0)
  }

  lemma StarvedCredit(e: Engine, sid: u32, len: nat, initial: u32, whole: nat)
    requires ValidEngine(e) && sid != 0 && 0 <= e.send.conn.recvWindow
    requires e.send.conn.recvWindow + Held(e.accumulated, 0) + len == whole <= I32_MAX
    requires e.policy.Threshold? && e.policy.limit(e.initialRecvWindow) > whole
    ensures var (e', fs) := ReturnCredit(e, sid, len, initial);
            e'.send.conn.recvWindow == e.send.conn.recvWindow && NoConnCredit(fs)
  {
    if len > 0 {
      ConnFillOrNot(e, len, whole);
      StreamCreditKeepsConn(CreditConn(e, len).0, sid, len, initial);
      StreamCreditFrames(CreditConn(e, len).0, sid, len, initial);
    }
  }

  lemma StreamCreditFrames(e: Engine, sid: u32, len: nat, initial: u32)
    requires ValidEngine(e) && sid != 0
    ensures NoConnCredit(CreditStream(e, sid, len, initial).1)
  {
  }

  lemma StarvedAccept(e: Engine, c: Conn, sid: u32, data: bytes, endStream: bool, len: nat, dropped: nat)
    requires ValidEngine(e) && sid != 0 && RecvInv(e, dropped) && Starved(e, dropped)
    requires ConsumeConnRecv(e.send.conn, len) == Some(c) && !Rejects(c, sid, len)
    ensures var (e', o) := AcceptData(e, c, sid, data, endStream, len);
            e'.send.conn.recvWindow <= e.send.conn.recvWindow && NoConnCredit(o.frames)
  {
    var c1 := if sid in c.streams
              then var s := ConsumeRecv(c.streams[sid], len).value;
                   WithStream(c, sid, if endStream then RecvEndStream(s) else s)
              else c;
    var initial := if sid in c.streams then c.streams[sid].initialWindow else DEFAULT_INITIAL_WINDOW;
    if len > 0 {
      StarvedCredit(e.WithConn(c1), sid, len, initial, e.initialRecvWindow - dropped);
    }
  }

  lemma StarvedData(e: Engine, sid: u32, data: bytes, endStream: bool, padding: Option<byte>, dropped: nat)
    requires ValidEngine(e) && sid != 0 && RecvInv(e, dropped) && Starved(e, dropped)
    ensures var (e', o) := HandleData(e, sid, data, endStream, padding);
            e'.send.conn.recvWindow <= e.send.conn.recvWindow && NoConnCredit(o.frames)
  {
    var len := FlowLength(data, padding);
    var c := ConsumeConnRecv(e.send.conn, len);
    if c.Some? && !Rejects(c.value, sid, len) {
      StarvedAccept(e, c.value, sid, data, endStream, len, dropped);
    }
  }

  lemma UpdateFrames(e: Engine, sid: u32, increment: u32)
    requires ValidEngine(e)
    ensures NoConnCredit(HandleWindowUpdate(e, sid, increment).1.frames)
  {
    var c := e.send.conn;
    if sid == 0 && UpdateConnSend(c, increment).Some? {
      DrainFrames(SendState(UpdateConnSend(c, increment).value, []), e.send.pending);
    } else if sid in c.streams && UpdateSend(c.streams[sid], increment).Some? {
      DrainFrames(SendState(WithStream(c, sid, UpdateSend(c.streams[sid], increment).value), []), e.send.pending);
    } else {
      DrainFrames(SendState(c, []), e.send.pending);
    }
  }

  lemma StarvedFrame(e: Engine, f: H2Frame, decoded: Option<HeaderList>, e': Engine, o: Output, dropped: nat)
    requires ValidEngine(e) && Handled(e, f, decoded, e', o) && RecvInv(e, dropped) && Starved(e, dropped)
    requires f.Data? ==> f.streamId != 0
    ensures e'.send.conn.recvWindow <= e.send.conn.recvWindow && NoConnCredit(o.frames)
  {
    HandledFixed(e, f, decoded, e', o);
    if f.Data? {
      StarvedData(e, f.streamId, f.data, f.endStream, f.padding, dropped);
    } else if f.WindowUpdate? {
      UpdateFrames(e, f.streamId, f.increment);
    }
  }

  lemma AskNoCredit(e: Engine, r: Request)
    requires ValidEngine(e)
    ensures NoConnCredit(SendRequest(e, r).1)
    ensures SendRequest(e, r).0.send.conn.recvWindow == e.send.conn.recvWindow
    ensures SendRequest(e, r).0.policy == e.policy && SendRequest(e, r).0.initialRecvWindow == e.initialRecvWindow
  {
    var s, sid := e.send, e.send.conn.nextStreamId;
    SplitHeadOk(sid, r.block, r.priority, s.conn.remote.maxFrameSize, r.body);
    if r.body != [] {
      BuildDataIsGreedy(s.(conn := OpenStream(s.conn)), sid, r.body, true);
      BuildDataConn(s.(conn := OpenStream(s.conn)), sid, r.body, true);
    }
  }

  /** What a step does to the connection's receive credit. */
  ghost predicate CreditStep(w: World, w': World) {
    && w.out <= w'.out && w.dropped <= w'.dropped
    && w'.engine.policy == w.engine.policy && w'.engine.initialRecvWindow == w.engine.initialRecvWindow
    && (Starved(w.engine, w.dropped) ==>
          && Starved(w'.engine, w'.dropped) && w'.engine.send.conn.recvWindow <= w.engine.send.conn.recvWindow
          && NoConnCredit(w'.out[|w.out|..]))
  }

  lemma CreditStepHolds(w: World, l: Label, w': World)
    requires Inv(w) && Inv(w') && Next(w, l, w')
    ensures CreditStep(w, w')
  {
    match l
    case Ask(r) => AskNoCredit(w.engine, r);
    case Receive(f, decoded, o) =>
      HandledFixed(w.engine, f, decoded, w'.engine, o);
      if Starved(w.engine, w.dropped) {
        StarvedFrame(w.engine, f, decoded, w'.engine, o, w.dropped);
      }
      assert w'.out[|w.out|..] == o.frames;
  }

  lemma CreditSteps(w: World, v: World, w': World)
    requires CreditStep(w, v) && CreditStep(v, w')
    ensures CreditStep(w, w')
  {
    assert w'.out[|w.out|..] == v.out[|w.out|..] + w'.out[|v.out|..];
  }

  lemma CreditNext(ws: seq<World>, ls: seq<Label>, profile: seq<SettingsParameter>, windowUpdate: u32,
                   blockLimit: nat, policy: FlowPolicy, w: World, j: nat)
    requires Run(ws, ls, profile, windowUpdate, blockLimit, policy) && j < |ls| && CreditStep(w, ws[j])
    ensures CreditStep(w, ws[j + 1])
  {
    RunInv(ws, ls, profile, windowUpdate, blockLimit, policy, j);
    RunInv(ws, ls, profile, windowUpdate, blockLimit, policy, j + 1);
    CreditStepHolds(ws[j], ls[j], ws[j + 1]);
    CreditSteps(w, ws[j], ws[j + 1]);
  }

  lemma CreditAlong(ws: seq<World>, ls: seq<Label>, profile: seq<SettingsParameter>, windowUpdate: u32,
                    blockLimit: nat, policy: FlowPolicy, i: nat, j: nat)
    requires Run(ws, ls, profile, windowUpdate, blockLimit, policy) && i <= j < |ws|
    ensures CreditStep(ws[i], ws[j])
  {
    var keeps := (w: World) => CreditStep(ws[i], w);
    assert ws[i].out[|ws[i].out|..] == [];
    forall k | i <= k < j && keeps(ws[k])
      ensures keeps(ws[k + 1])
    {
      CreditNext(ws, ls, profile, windowUpdate, blockLimit, policy, ws[i], k);
    }
    KeptAlong(ws, keeps, i, j);
  }

  /** Dropped bytes never come back, in any run: the window stays below the initial one by at least as
      much. Once what is left lies below the threshold, no connection credit is ever announced again and
      the window only shrinks; and once it is empty, every non-empty DATA frame is a connection error,
      whatever its stream. */
  lemma DroppedCreditIsLost(ws: seq<World>, ls: seq<Label>, profile: seq<SettingsParameter>, windowUpdate: u32,
                            blockLimit: nat, policy: FlowPolicy, i: nat, j: nat)
    requires Run(ws, ls, profile, windowUpdate, blockLimit, policy) && i <= j < |ws|
    ensures ws[j].engine.send.conn.recvWindow <= ws[j].engine.initialRecvWindow - ws[i].dropped
    ensures Starved(ws[i].engine, ws[i].dropped) ==>
              && ws[j].engine.send.conn.recvWindow <= ws[i].engine.send.conn.recvWindow
              && ws[i].out <= ws[j].out && NoConnCredit(ws[j].out[|ws[i].out|..])
    ensures ws[i].dropped == ws[i].engine.initialRecvWindow ==> ws[j].engine.send.conn.recvWindow == 0
    ensures ValidEngine(ws[j].engine)
    ensures ws[j].engine.send.conn.recvWindow == 0 ==>
              forall sid: u32, data: bytes, endStream: bool :: data != [] ==>
                HandleData(ws[j].engine, sid, data, endStream, None).1.frames == [GoAwayFor(FLOW_CONTROL_ERROR)]
  {
    CreditAlong(ws, ls, profile, windowUpdate, blockLimit, policy, i, j);
    RunInv(ws, ls, profile, windowUpdate, blockLimit, policy, j);
  }
}
