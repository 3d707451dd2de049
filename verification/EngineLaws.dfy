/** The engine's laws: what holds in every state of every run, whatever the peer sends. */
module EngineLaws {
  import opened Wire
  import opened Frames
  import opened Codec
  import opened HeaderBlocks
  import opened Streams
  import opened Connection
  import opened Sender
  import opened Policy
  import opened Engine
  import opened Runs
  import opened SendRuns
  import opened EngineRuns

  // ---- What a frame leaves alone ----------------------------------------------------------------

  lemma {:induction false} DrainConn(s: SendState, todo: seq<PendingBody>)
    requires s.conn.remote.maxFrameSize > 0
    ensures var c := Drain(s, todo).0.conn; c == s.conn.(sendWindow := c.sendWindow, streams := c.streams)
    decreases |todo|
  {
    if todo != [] {
      DrainConn(BuildData(s, todo[0].streamId, todo[0].data, todo[0].endStream).0, todo[1..]);
    }
  }

  /** The parts of the engine no inbound frame changes; an error, once recorded, stays. */
  ghost predicate FixedParts(e: Engine, e': Engine) {
    && e'.policy == e.policy && e'.initialRecvWindow == e.initialRecvWindow
    && e'.send.conn.nextStreamId == e.send.conn.nextStreamId
    && (e.send.conn.error.Some? ==> e'.send.conn.error.Some?)
    && (ValidSettings(e.send.conn.remote) ==> ValidSettings(e'.send.conn.remote))
  }

  predicate SameRecv(e: Engine, e': Engine) {
    e'.send.conn.recvWindow == e.send.conn.recvWindow && e'.accumulated == e.accumulated
  }

  lemma WindowUpdateFixed(e: Engine, sid: u32, increment: u32)
    requires ValidEngine(e)
    ensures var e' := HandleWindowUpdate(e, sid, increment).0; FixedParts(e, e') && SameRecv(e, e')
  {
    var c := e.send.conn;
    if sid == 0 && UpdateConnSend(c, increment).Some? {
      DrainConn(SendState(UpdateConnSend(c, increment).value, []), e.send.pending);
    } else if sid in c.streams && UpdateSend(c.streams[sid], increment).Some? {
      DrainConn(SendState(WithStream(c, sid, UpdateSend(c.streams[sid], increment).value), []), e.send.pending);
    } else {
      DrainConn(SendState(c, []), e.send.pending);
    }
  }

  lemma SettingsFixed(e: Engine, ack: bool, ps: seq<SettingsParameter>, e': Engine, out: Output)
    requires SettingsHandled(e, ack, ps, e', out)
    ensures FixedParts(e, e') && SameRecv(e, e')
  {
    if !ack {
      var c', ok :| SettingsApplied(e.send.conn, ps, c', ok) && (e', out) == SettingsOutcome(e, c', ok);
      SettingsVerdict(e.send.conn, ps, c', ok);
      if ValidSettings(e.send.conn.remote) {
        ParamsKeepValid(e.send.conn.remote, ps);
      }
    }
  }

  lemma HeaderFixed(e: Engine, f: H2Frame, decoded: Option<HeaderList>)
    requires f.Headers? || f.Continuation?
    ensures var e' := HandleHeaderFrame(e, f, decoded).0; FixedParts(e, e') && SameRecv(e, e')
  {
  }

  lemma ReturnCreditFixed(e: Engine, sid: u32, len: nat, initial: u32)
    requires ValidEngine(e)
    ensures FixedParts(e, ReturnCredit(e, sid, len, initial).0)
  {
  }

  lemma AcceptFixed(e: Engine, c: Conn, sid: u32, data: bytes, endStream: bool, len: nat)
    requires ValidEngine(e) && ConsumeConnRecv(e.send.conn, len) == Some(c)
    requires sid in c.streams ==> ConsumeRecv(c.streams[sid], len).Some?
    ensures FixedParts(e, AcceptData(e, c, sid, data, endStream, len).0)
  {
    var c1 := if sid in c.streams
              then var s := ConsumeRecv(c.streams[sid], len).value;
                   WithStream(c, sid, if endStream then RecvEndStream(s) else s)
              else c;
    var initial := if sid in c.streams then c.streams[sid].initialWindow else DEFAULT_INITIAL_WINDOW;
    ReturnCreditFixed(e.WithConn(c1), sid, len, initial);
  }

  lemma DataFixed(e: Engine, sid: u32, data: bytes, endStream: bool, padding: Option<byte>)
    requires ValidEngine(e)
    ensures FixedParts(e, HandleData(e, sid, data, endStream, padding).0)
  {
    var len := FlowLength(data, padding);
    match ConsumeConnRecv(e.send.conn, len)
    case None =>
    case Some(c) =>
      if sid in c.streams && (!c.streams[sid].state.CanReceive() || ConsumeRecv(c.streams[sid], len).None?) {
      } else {
        AcceptFixed(e, c, sid, data, endStream, len);
      }
  }

  lemma HandledFixed(e: Engine, f: H2Frame, decoded: Option<HeaderList>, e': Engine, out: Output)
    requires ValidEngine(e) && Handled(e, f, decoded, e', out)
    ensures FixedParts(e, e')
    ensures !f.Data? ==> SameRecv(e, e')
  {
    if f.WindowUpdate? {
      WindowUpdateFixed(e, f.streamId, f.increment);
    } else if f.Settings? {
      SettingsFixed(e, f.ack, f.settings, e', out);
    } else if f.Headers? || f.Continuation? {
      HeaderFixed(e, f, decoded);
    } else if f.Data? {
      DataFixed(e, f.streamId, f.data, f.endStream, f.padding);
    }
  }

  // ---- Receive credit ---------------------------------------------------------------------------

  /** Bytes the connection window gave up to a DATA frame that was answered with RST_STREAM. */
  function DroppedBy(e: Engine, f: H2Frame): nat
    requires ValidEngine(e)
  {
    if f.Data? && (var fs := HandleData(e, f.streamId, f.data, f.endStream, f.padding).1.frames;
                   fs != [] && fs[0].RstStream?)
    then FlowLength(f.data, f.padding) else 0
  }

  /** Every byte of the initial window is available, held back by the policy, or lost to a DATA frame
      that was dropped. */
  ghost predicate RecvInv(e: Engine, dropped: nat) {
    && DEFAULT_INITIAL_WINDOW <= e.initialRecvWindow <= I32_MAX
    && e.send.conn.recvWindow >= 0
    && e.send.conn.recvWindow + Held(e.accumulated, 0) + dropped == e.initialRecvWindow
    && (if e.policy.Immediate? then e.accumulated == map[]
        else Held(e.accumulated, 0) < Max(1, e.policy.limit(e.initialRecvWindow)))
  }

  predicate CreditsOk(fs: seq<H2Frame>) {
    forall i :: 0 <= i < |fs| ==> fs[i].WindowUpdate? && fs[i].streamId == 0 ==> 1 <= fs[i].increment <= I32_MAX
  }

  lemma CreditsAppend(a: seq<H2Frame>, b: seq<H2Frame>)
    requires CreditsOk(a) && CreditsOk(b)
    ensures CreditsOk(a + b)
  {
  }

  /** Taking `len` bytes from the connection window and crediting them keeps the ledger. */
  lemma CreditConnLedger(e: Engine, len: nat, dropped: nat)
    requires ValidEngine(e) && e.send.conn.recvWindow >= 0 && len > 0
    requires RecvInv(e.WithConn(e.send.conn.(recvWindow := e.send.conn.recvWindow + len)), dropped)
    ensures var (e', fs) := CreditConn(e, len); RecvInv(e', dropped) && CreditsOk(fs)
  {
    PolicyConserves(e.policy, e.accumulated, 0, len, e.initialRecvWindow);
    var increment := OnDataReceived(e.policy, e.accumulated, 0, len, e.initialRecvWindow).1;
    assert increment.Some? ==> 1 <= increment.value <= e.initialRecvWindow - e.send.conn.recvWindow;
  }

  lemma CreditStreamLedger(e: Engine, sid: u32, len: nat, initial: u32, dropped: nat)
    requires ValidEngine(e) && sid != 0 && RecvInv(e, dropped)
    ensures var (e', fs) := CreditStream(e, sid, len, initial); RecvInv(e', dropped) && CreditsOk(fs)
  {
    if e.policy.Threshold? {
      PolicyConserves(e.policy, e.accumulated, sid, len, initial);
    }
  }

  lemma ReturnCreditLedger(e: Engine, sid: u32, len: nat, initial: u32, dropped: nat)
    requires ValidEngine(e) && sid != 0
    requires RecvInv(e.WithConn(e.send.conn.(recvWindow := e.send.conn.recvWindow + len)), dropped)
    requires e.send.conn.recvWindow >= 0
    ensures var (e', fs) := ReturnCredit(e, sid, len, initial); RecvInv(e', dropped) && CreditsOk(fs)
  {
    if len == 0 {
      assert e.WithConn(e.send.conn.(recvWindow := e.send.conn.recvWindow + len)) == e;
    } else {
      CreditConnLedger(e, len, dropped);
      var (e1, fs) := CreditConn(e, len);
      CreditStreamLedger(e1, sid, len, initial, dropped);
      CreditsAppend(fs, CreditStream(e1, sid, len, initial).1);
    }
  }

  /** The two early returns of `handle_data` that answer with RST_STREAM. */
  predicate Rejects(c: Conn, sid: u32, len: nat) {
    sid in c.streams && (!c.streams[sid].state.CanReceive() || ConsumeRecv(c.streams[sid], len).None?)
  }

  lemma AcceptFrames(e: Engine, c: Conn, sid: u32, data: bytes, endStream: bool, len: nat)
    requires ValidEngine(e) && c.remote == e.send.conn.remote
    requires sid in c.streams ==> ConsumeRecv(c.streams[sid], len).Some?
    ensures var fs := AcceptData(e, c, sid, data, endStream, len).1.frames; fs != [] ==> fs[0].WindowUpdate?
  {
  }

  lemma DroppedAmount(e: Engine, sid: u32, data: bytes, endStream: bool, padding: Option<byte>)
    requires ValidEngine(e)
    ensures var c, len := ConsumeConnRecv(e.send.conn, FlowLength(data, padding)), FlowLength(data, padding);
            DroppedBy(e, Data(sid, data, endStream, padding)) == if c.Some? && Rejects(c.value, sid, len) then len else 0
  {
    var len := FlowLength(data, padding);
    var c := ConsumeConnRecv(e.send.conn, len);
    if c.Some? && !Rejects(c.value, sid, len) {
      AcceptFrames(e, c.value, sid, data, endStream, len);
    }
  }

  lemma RejectLedger(e: Engine, c: Conn, sid: u32, len: nat, code: u32, events: seq<H2Event>, dropped: nat)
    requires RecvInv(e, dropped) && ConsumeConnRecv(e.send.conn, len) == Some(c)
    ensures var (e', o) := EmitRst(e.WithConn(c), sid, code, events);
            RecvInv(e', dropped + len) && CreditsOk(o.frames)
  {
  }

  /** A DATA frame keeps the ledger, whether it is taken, dropped or refused by the connection. */
  lemma DataLedger(e: Engine, sid: u32, data: bytes, endStream: bool, padding: Option<byte>, dropped: nat)
    requires ValidEngine(e) && sid != 0 && RecvInv(e, dropped)
    ensures var (e', o) := HandleData(e, sid, data, endStream, padding);
            && RecvInv(e', dropped + DroppedBy(e, Data(sid, data, endStream, padding)))
            && CreditsOk(o.frames)
  {
    var len := FlowLength(data, padding);
    DroppedAmount(e, sid, data, endStream, padding);
    match ConsumeConnRecv(e.send.conn, len)
    case None =>
    case Some(c) =>
      if Rejects(c, sid, len) {
        RejectLedger(e, c, sid, len, STREAM_CLOSED, [], dropped);
        RejectLedger(e, c, sid, len, FLOW_CONTROL_ERROR, [StreamReset(sid, FLOW_CONTROL_ERROR)], dropped);
      } else {
        AcceptLedger(e, c, sid, data, endStream, len, dropped);
      }
  }

  lemma AcceptLedger(e: Engine, c: Conn, sid: u32, data: bytes, endStream: bool, len: nat, dropped: nat)
    requires ValidEngine(e) && sid != 0 && RecvInv(e, dropped)
    requires ConsumeConnRecv(e.send.conn, len) == Some(c)
    requires sid in c.streams ==> ConsumeRecv(c.streams[sid], len).Some?
    ensures var (e', o) := AcceptData(e, c, sid, data, endStream, len);
            RecvInv(e', dropped) && CreditsOk(o.frames)
  {
    var c1 := if sid in c.streams
              then var s := ConsumeRecv(c.streams[sid], len).value;
                   WithStream(c, sid, if endStream then RecvEndStream(s) else s)
              else c;
    var initial := if sid in c.streams then c.streams[sid].initialWindow else DEFAULT_INITIAL_WINDOW;
    ReturnCreditLedger(e.WithConn(c1), sid, len, initial, dropped);
  }

  // ---- Runs -------------------------------------------------------------------------------------

  /** A frame that came in; `roomy` unless it is DATA beyond the connection's receive window. */
  datatype Arrival = Arrival(frame: H2Frame, roomy: bool)

  /** What a DATA frame takes out of the receive windows: its bytes, and with padding the length byte and
      the padding. */
  function Weight(f: H2Frame): nat {
    if !f.Data? then 0
    else if f.padding.None? then |f.data|
    else |f.data| + 1 + f.padding.value
  }

  /** An engine together with everything observable so far: the frames it emitted, the credit it was
      granted, the requests by stream id and in number, the DATA bytes it dropped and the frames it
      was given. */
  datatype World = World(
    engine: Engine, out: seq<H2Frame>, grants: seq<Grant>, reqs: map<u32, Opened>, opens: nat, dropped: nat,
    heard: seq<Arrival>)

  datatype Label =
    | Ask(request: Request)
    | Receive(frame: H2Frame, decoded: Option<HeaderList>, output: Output)

  /** A fresh client engine for a profile whose WINDOW_UPDATE keeps the window within 2^31-1. */
  ghost predicate Start(w: World, profile: seq<SettingsParameter>, windowUpdate: u32, blockLimit: nat, policy: FlowPolicy) {
    && windowUpdate <= I32_MAX - DEFAULT_INITIAL_WINDOW
    && w == World(ClientEngine(profile, windowUpdate, blockLimit, policy), [], [], map[], 0, 0, [])
  }

  /** The frames of a request's header block. */
  function HeadFrames(e: Engine, r: Request): seq<H2Frame>
    requires ValidEngine(e)
  {
    SplitBlock(e.send.conn.nextStreamId, r.block, r.body == [], r.priority, e.send.conn.remote.maxFrameSize)
  }

  /** The world after a request on a new stream. */
  function AfterAsk(w: World, r: Request): World
    requires ValidEngine(w.engine)
  {
    World(SendRequest(w.engine, r).0, w.out + SendRequest(w.engine, r).1, w.grants,
          w.reqs[w.engine.send.conn.nextStreamId := Opened(HeadFrames(w.engine, r), r.body)], w.opens + 1, w.dropped,
          w.heard)
  }

  /** The world after a frame that took the engine to `e` with output `o`. */
  function AfterReceive(w: World, f: H2Frame, o: Output, e: Engine): World
    requires ValidEngine(w.engine)
  {
    World(e, w.out + o.frames, w.grants + GrantsOf(w.engine, f), w.reqs, w.opens, w.dropped + DroppedBy(w.engine, f),
          w.heard + [Arrival(f, Weight(f) <= w.engine.send.conn.recvWindow)])
  }

  /** One step: a request, or a frame as the codec delivers it. The u32 stream counter comes round
      after 2^31 requests; a run ends there. */
  ghost predicate Next(w: World, l: Label, w': World) {
    && ValidEngine(w.engine)
    && match l
       case Ask(r) => w.opens < 0x8000_0000 && w' == AfterAsk(w, r)
       case Receive(f, decoded, o) =>
         && (f.Unknown? || Fits(MAX_FRAME_SIZE_LIMIT, f))
         && Handled(w.engine, f, decoded, w'.engine, o)
         && w' == AfterReceive(w, f, o, w'.engine)
  }

  predicate IdsOk(c: Conn, reqs: map<u32, Opened>, opens: nat) {
    && opens <= 0x8000_0000 && c.nextStreamId == (if opens < 0x8000_0000 then 2 * opens + 1 else 1)
    && forall sid :: sid in reqs ==> sid < 2 * opens
  }

  ghost predicate EngineInv(e: Engine, out: seq<H2Frame>, grants: seq<Grant>, reqs: map<u32, Opened>, dropped: nat) {
    ValidEngine(e) && SendInv(e.send, [], out, grants, reqs) && RecvInv(e, dropped) && CreditsOk(out)
  }

  ghost predicate Inv(w: World) {
    && EngineInv(w.engine, w.out, w.grants, w.reqs, w.dropped)
    && IdsOk(w.engine.send.conn, w.reqs, w.opens)
  }

  lemma StartInv(w: World, profile: seq<SettingsParameter>, windowUpdate: u32, blockLimit: nat, policy: FlowPolicy)
    requires Start(w, profile, windowUpdate, blockLimit, policy)
    ensures Inv(w)
  {
    ParamsKeepValid(DEFAULT_SETTINGS.(enablePush := false), profile);
    assert Payloads([]) == [] && Granted([], 0) == 0;
  }

  lemma BodySend(s: SendState, sid: u32, body: bytes, out: seq<H2Frame>, grants: seq<Grant>, reqs: map<u32, Opened>)
    requires SendInv(s, Waiting(sid, body), out, grants, reqs) && body != []
    ensures var (t, fs) := BuildData(s, sid, body, true); SendInv(t, [], out + fs, grants, reqs)
  {
    var p := PendingBody(sid, body, true);
    assert Waiting(sid, body) == [p] + [];
    SendOne(s, p, [], out, grants, reqs);
  }

  /** A request on a fresh stream keeps the send-side invariant. */
  lemma AskSend(e: Engine, r: Request, out: seq<H2Frame>, grants: seq<Grant>, reqs: map<u32, Opened>,
                head: seq<H2Frame>, all: map<u32, Opened>)
    requires ValidEngine(e) && SendInv(e.send, [], out, grants, reqs)
    requires var sid := e.send.conn.nextStreamId;
             && head == SplitBlock(sid, r.block, r.body == [], r.priority, e.send.conn.remote.maxFrameSize)
             && sid !in reqs && sid != 0 && all == reqs[sid := Opened(head, r.body)]
    ensures var (e', fs) := SendRequest(e, r); SendInv(e'.send, [], out + fs, grants, all)
  {
    var s, sid := e.send, e.send.conn.nextStreamId;
    SplitHeadOk(sid, r.block, r.priority, s.conn.remote.maxFrameSize, r.body);
    RequestHead(s, out, head, r.body, grants, reqs, all);
    if r.body != [] {
      var s1 := s.(conn := OpenStream(s.conn));
      BodySend(s1, sid, r.body, out + head, grants, all);
      Assoc(out, head, BuildData(s1, sid, r.body, true).1);
    }
  }

  lemma AskFixed(e: Engine, r: Request)
    requires ValidEngine(e)
    ensures var e' := SendRequest(e, r).0;
            && ValidEngine(e')
            && e'.send.conn.nextStreamId == (e.send.conn.nextStreamId + 2) % 0x1_0000_0000
            && e'.send.conn.error == e.send.conn.error
  {
    if r.body != [] {
      BuildDataConn(e.send.(conn := OpenStream(e.send.conn)), e.send.conn.nextStreamId, r.body, true);
    }
  }

  /** The k-th request gets id 2k+1, new as long as fewer than 2^31 were made. */
  lemma FreshId(c: Conn, reqs: map<u32, Opened>, opens: nat)
    requires IdsOk(c, reqs, opens) && opens < 0x8000_0000
    ensures c.nextStreamId == 2 * opens + 1 && c.nextStreamId !in reqs && c.nextStreamId != 0
  {
  }

  lemma NextId(c: Conn, c': Conn, reqs: map<u32, Opened>, all: map<u32, Opened>, opens: nat)
    requires IdsOk(c, reqs, opens) && opens < 0x8000_0000
    requires c'.nextStreamId == (c.nextStreamId + 2) % 0x1_0000_0000 && all.Keys == reqs.Keys + {c.nextStreamId}
    ensures IdsOk(c', all, opens + 1)
  {
    FreshId(c, reqs, opens);
    assert forall sid :: sid in all ==> sid in reqs || sid == 2 * opens + 1;
  }

  lemma AskEngine(e: Engine, r: Request, out: seq<H2Frame>, grants: seq<Grant>, reqs: map<u32, Opened>,
                  head: seq<H2Frame>, all: map<u32, Opened>, dropped: nat)
    requires EngineInv(e, out, grants, reqs, dropped)
    requires var sid := e.send.conn.nextStreamId;
             && head == SplitBlock(sid, r.block, r.body == [], r.priority, e.send.conn.remote.maxFrameSize)
             && sid !in reqs && sid != 0 && all == reqs[sid := Opened(head, r.body)]
    ensures var (e', fs) := SendRequest(e, r); EngineInv(e', out + fs, grants, all, dropped)
  {
    AskSend(e, r, out, grants, reqs, head, all);
    AskFixed(e, r);
    AskCredits(e, r, out, dropped);
  }

  lemma AskIds(e: Engine, r: Request, reqs: map<u32, Opened>, all: map<u32, Opened>, opens: nat)
    requires ValidEngine(e) && IdsOk(e.send.conn, reqs, opens) && opens < 0x8000_0000
    requires all.Keys == reqs.Keys + {e.send.conn.nextStreamId}
    ensures IdsOk(SendRequest(e, r).0.send.conn, all, opens + 1)
  {
    AskFixed(e, r);
    NextId(e.send.conn, SendRequest(e, r).0.send.conn, reqs, all, opens);
  }

  lemma AskAll(e: Engine, r: Request, out: seq<H2Frame>, grants: seq<Grant>, reqs: map<u32, Opened>, opens: nat,
               dropped: nat)
    requires EngineInv(e, out, grants, reqs, dropped) && IdsOk(e.send.conn, reqs, opens) && opens < 0x8000_0000
    ensures var all := reqs[e.send.conn.nextStreamId := Opened(HeadFrames(e, r), r.body)];
            && EngineInv(SendRequest(e, r).0, out + SendRequest(e, r).1, grants, all, dropped)
            && IdsOk(SendRequest(e, r).0.send.conn, all, opens + 1)
  {
    var all := reqs[e.send.conn.nextStreamId := Opened(HeadFrames(e, r), r.body)];
    FreshId(e.send.conn, reqs, opens);
    AskEngine(e, r, out, grants, reqs, HeadFrames(e, r), all, dropped);
    AskIds(e, r, reqs, all, opens);
  }

  lemma AskKeeps(w: World, r: Request)
    requires Inv(w) && w.opens < 0x8000_0000
    ensures Inv(AfterAsk(w, r))
  {
    AskAll(w.engine, r, w.out, w.grants, w.reqs, w.opens, w.dropped);
  }

  lemma BodyFrames(s: SendState, sid: u32, body: bytes)
    requires s.conn.remote.maxFrameSize > 0 && body != []
    ensures CreditsOk(BuildData(s, sid, body, true).1)
  {
    BuildDataIsGreedy(s, sid, body, true);
  }

  /** A request emits only its own frames and touches neither receive credit nor the policy. */
  lemma AskCredits(e: Engine, r: Request, out: seq<H2Frame>, dropped: nat)
    requires ValidEngine(e) && RecvInv(e, dropped) && CreditsOk(out)
    ensures var (e', fs) := SendRequest(e, r); CreditsOk(out + fs) && RecvInv(e', dropped)
  {
    var s, sid := e.send, e.send.conn.nextStreamId;
    var head := SplitBlock(sid, r.block, r.body == [], r.priority, s.conn.remote.maxFrameSize);
    SplitHeadOk(sid, r.block, r.priority, s.conn.remote.maxFrameSize, r.body);
    if r.body != [] {
      var s1 := s.(conn := OpenStream(s.conn));
      BodyFrames(s1, sid, r.body);
      BuildDataConn(s1, sid, r.body, true);
      CreditsAppend(head, BuildData(s1, sid, r.body, true).1);
    }
    CreditsAppend(out, SendRequest(e, r).1);
  }

  /** Whatever the frame, the send-side invariant is kept. */
  lemma HandledSend(e: Engine, f: H2Frame, decoded: Option<HeaderList>, e': Engine, o: Output, out: seq<H2Frame>,
                    grants: seq<Grant>, reqs: map<u32, Opened>)
    requires ValidEngine(e) && SendInv(e.send, [], out, grants, reqs) && Handled(e, f, decoded, e', o)
    ensures SendInv(e'.send, [], out + o.frames, grants + GrantsOf(e, f), reqs)
  {
    if f.WindowUpdate? {
      WindowUpdateKeeps(e, f.streamId, f.increment, out, grants, reqs);
    } else {
      assert grants + GrantsOf(e, f) == grants;
      if f.Settings? {
        SettingsSend(e, f.ack, f.settings, e', o, out, grants, reqs);
      } else if f.Headers? || f.Continuation? {
        HeaderFrameKeeps(e, f, decoded, out, grants, reqs);
      } else if f.Data? {
        DataKeeps(e, f.streamId, f.data, f.endStream, f.padding, out, grants, reqs);
      } else if f.RstStream? {
        RstStreamKeeps(e, f.streamId, out, grants, reqs);
      } else {
        IdleKeeps(e, f, decoded, out, grants, reqs);
      }
    }
  }

  predicate IdleFrame(f: H2Frame) {
    f.Ping? || f.GoAway? || f.PushPromise? || f.Priority? || f.Unknown?
  }

  lemma IdleKeeps(e: Engine, f: H2Frame, decoded: Option<HeaderList>, out: seq<H2Frame>, grants: seq<Grant>,
                  reqs: map<u32, Opened>)
    requires ValidEngine(e) && SendInv(e.send, [], out, grants, reqs) && IdleFrame(f)
    ensures var (e', o) := HandleOther(e, f, decoded); SendInv(e'.send, [], out + o.frames, grants, reqs)
  {
    var (e', o) := HandleOther(e, f, decoded);
    SameTableQuiet(e.send, e'.send.conn, out, o.frames, grants, reqs);
  }

  lemma SettingsSend(e: Engine, ack: bool, ps: seq<SettingsParameter>, e': Engine, o: Output, out: seq<H2Frame>,
                     grants: seq<Grant>, reqs: map<u32, Opened>)
    requires SendInv(e.send, [], out, grants, reqs) && SettingsHandled(e, ack, ps, e', o)
    ensures SendInv(e'.send, [], out + o.frames, grants, reqs)
  {
    if ack {
      SameTableQuiet(e.send, AckSettings(e.send.conn), out, [], grants, reqs);
    } else {
      var c', ok :| SettingsApplied(e.send.conn, ps, c', ok) && (e', o) == SettingsOutcome(e, c', ok);
      SettingsKeeps(e, ps, c', ok, o.frames, out, grants, reqs);
    }
  }

  /** Only DATA makes the engine announce connection credit, and only within its bounds. */
  lemma HandledRecv(e: Engine, f: H2Frame, decoded: Option<HeaderList>, e': Engine, o: Output, dropped: nat)
    requires ValidEngine(e) && RecvInv(e, dropped) && Handled(e, f, decoded, e', o)
    requires f.Unknown? || Fits(MAX_FRAME_SIZE_LIMIT, f)
    ensures RecvInv(e', dropped + DroppedBy(e, f)) && CreditsOk(o.frames)
  {
    HandledFixed(e, f, decoded, e', o);
    if f.Data? {
      DataLedger(e, f.streamId, f.data, f.endStream, f.padding, dropped);
    } else if f.WindowUpdate? {
      WindowUpdateFrames(e, f.streamId, f.increment);
    } else if f.Headers? || f.Continuation? {
      HeaderCredits(e, f, decoded);
    }
  }

  lemma HeaderCredits(e: Engine, f: H2Frame, decoded: Option<HeaderList>)
    requires f.Headers? || f.Continuation?
    ensures CreditsOk(HandleHeaderFrame(e, f, decoded).1.frames)
  {
  }

  lemma {:induction false} DrainFrames(s: SendState, todo: seq<PendingBody>)
    requires s.conn.remote.maxFrameSize > 0
    ensures forall i :: 0 <= i < |Drain(s, todo).1| ==> Drain(s, todo).1[i].Data?
    decreases |todo|
  {
    if todo != [] {
      var p := todo[0];
      var (t, fs) := BuildData(s, p.streamId, p.data, p.endStream);
      if p.data != [] {
        BuildDataIsGreedy(s, p.streamId, p.data, p.endStream);
      }
      assert forall i :: 0 <= i < |fs| ==> fs[i].Data?;
      DrainFrames(t, todo[1..]);
    }
  }

  lemma WindowUpdateFrames(e: Engine, sid: u32, increment: u32)
    requires ValidEngine(e)
    ensures CreditsOk(HandleWindowUpdate(e, sid, increment).1.frames)
  {
    var c := e.send.conn;
    if sid == 0 && UpdateConnSend(c, increment).Some? {
      DrainFrames(SendState(UpdateConnSend(c, increment).value, []), e.send.pending);
    } else if sid in c.streams && UpdateSend(c.streams[sid], increment).Some? {
      DrainFrames(SendState(WithStream(c, sid, UpdateSend(c.streams[sid], increment).value), []), e.send.pending);
    } else {
      DrainFrames(SendState(c, []), e.send.pending);
    }
  }

  lemma HandledAll(e: Engine, f: H2Frame, decoded: Option<HeaderList>, e': Engine, o: Output, out: seq<H2Frame>,
                   grants: seq<Grant>, reqs: map<u32, Opened>, dropped: nat)
    requires EngineInv(e, out, grants, reqs, dropped)
    requires f.Unknown? || Fits(MAX_FRAME_SIZE_LIMIT, f)
    requires Handled(e, f, decoded, e', o)
    ensures EngineInv(e', out + o.frames, grants + GrantsOf(e, f), reqs, dropped + DroppedBy(e, f))
    ensures e'.send.conn.nextStreamId == e.send.conn.nextStreamId
  {
    HandledSend(e, f, decoded, e', o, out, grants, reqs);
    HandledRecv(e, f, decoded, e', o, dropped);
    HandledFixed(e, f, decoded, e', o);
    CreditsAppend(out, o.frames);
  }

  lemma ReceiveKeeps(w: World, f: H2Frame, decoded: Option<HeaderList>, o: Output, e: Engine)
    requires Inv(w) && (f.Unknown? || Fits(MAX_FRAME_SIZE_LIMIT, f)) && Handled(w.engine, f, decoded, e, o)
    ensures Inv(AfterReceive(w, f, o, e))
  {
    HandledAll(w.engine, f, decoded, e, o, w.out, w.grants, w.reqs, w.dropped);
  }

  /** Every step keeps the invariant. */
  lemma NextKeeps(w: World, l: Label, w': World)
    requires Inv(w) && Next(w, l, w')
    ensures Inv(w')
  {
    match l
    case Ask(r) => AskKeeps(w, r);
    case Receive(f, decoded, o) => ReceiveKeeps(w, f, decoded, o, w'.engine);
  }

  /** A run: a start state and any number of steps. */
  ghost predicate Run(ws: seq<World>, ls: seq<Label>, profile: seq<SettingsParameter>, windowUpdate: u32,
                      blockLimit: nat, policy: FlowPolicy) {
    && |ws| == |ls| + 1
    && Start(ws[0], profile, windowUpdate, blockLimit, policy)
    && forall i :: 0 <= i < |ls| ==> Next(ws[i], ls[i], ws[i + 1])
  }

  /** The invariant holds in every state of every run. */
  lemma {:induction false} RunInv(ws: seq<World>, ls: seq<Label>, profile: seq<SettingsParameter>, windowUpdate: u32,
                                  blockLimit: nat, policy: FlowPolicy, i: nat)
    requires Run(ws, ls, profile, windowUpdate, blockLimit, policy) && i < |ws|
    ensures Inv(ws[i])
  {
    if i == 0 {
      StartInv(ws[0], profile, windowUpdate, blockLimit, policy);
    } else {
      RunInv(ws, ls, profile, windowUpdate, blockLimit, policy, i - 1);
      NextKeeps(ws[i - 1], ls[i - 1], ws[i]);
    }
  }
}
