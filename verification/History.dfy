/** The engine's state read off the wire: in every state of every run, settings, errors, answers and receive
    credit are what the frames received and sent so far make them. */
module History {
  import opened Wire
  import opened Frames
  import opened Codec
  import opened HeaderBlocks
  import opened Streams
  import opened Connection
  import opened Sender
  import opened Policy
  import opened Engine
  import opened Runs
  import opened SendRuns
  import opened EngineRuns
  import opened EngineLaws
  import opened EngineTheorems
  import opened StreamCredit

  // ---- Reading the frames received ----------------------------------------------------------------

  /** The parameters a frame sets: those before the first illegal one. */
  function ParamsOf(f: H2Frame): seq<SettingsParameter> {
    if f.Settings? && !f.ack then f.settings[..LegalCount(f.settings)] else []
  }

  function ParamsIn(heard: seq<Arrival>): seq<SettingsParameter> {
    if heard == [] then [] else ParamsIn(heard[..|heard| - 1]) + ParamsOf(heard[|heard| - 1].frame)
  }

  /** The error a GOAWAY reports, if any; codes beyond the thirteen defined ones count as internal errors. */
  function FailureOf(f: H2Frame): Option<u32> {
    if f.GoAway? && f.errorCode != 0 then Some(if f.errorCode <= 13 then f.errorCode else 2) else None
  }

  function LastFailure(heard: seq<Arrival>): Option<u32> {
    if heard == [] then None
    else if FailureOf(heard[|heard| - 1].frame).Some? then FailureOf(heard[|heard| - 1].frame)
    else LastFailure(heard[..|heard| - 1])
  }

  /** The last stream id the latest GOAWAY admits. */
  function LastAdmitted(heard: seq<Arrival>): Option<u32> {
    if heard == [] then None
    else if heard[|heard| - 1].frame.GoAway? then Some(heard[|heard| - 1].frame.lastStreamId)
    else LastAdmitted(heard[..|heard| - 1])
  }

  /** The data of the PINGs to be answered. */
  function PingsIn(heard: seq<Arrival>): seq<bytes> {
    if heard == [] then []
    else
      var f := heard[|heard| - 1].frame;
      PingsIn(heard[..|heard| - 1]) + if f.Ping? && !f.ack then [f.opaqueData] else []
  }

  predicate Acked(heard: seq<Arrival>) {
    exists i :: 0 <= i < |heard| && heard[i].frame.Settings? && heard[i].frame.ack
  }

  function HeadersIn(heard: seq<Arrival>): (fs: seq<H2Frame>)
    ensures HeaderFrames(fs)
  {
    if heard == [] then []
    else
      var f := heard[|heard| - 1].frame;
      HeadersIn(heard[..|heard| - 1]) + if f.Headers? || f.Continuation? then [f] else []
  }

  /** The bytes DATA frames took out of the connection window. */
  function FlowIn(heard: seq<Arrival>): nat {
    if heard == [] then 0
    else FlowIn(heard[..|heard| - 1]) + if heard[|heard| - 1].roomy then Weight(heard[|heard| - 1].frame) else 0
  }

  /** The same for one stream. */
  function FlowOn(heard: seq<Arrival>, sid: u32): nat {
    if heard == [] then 0
    else
      var a := heard[|heard| - 1];
      FlowOn(heard[..|heard| - 1], sid)
      + if a.roomy && a.frame.Data? && a.frame.streamId == sid then Weight(a.frame) else 0
  }

  // ---- Reading the frames sent --------------------------------------------------------------------

  function PingAcks(out: seq<H2Frame>): seq<bytes> {
    if out == [] then []
    else
      var f := out[|out| - 1];
      PingAcks(out[..|out| - 1]) + if f.Ping? && f.ack then [f.opaqueData] else []
  }

  /** The credit announced on a stream, or on the connection for stream zero. */
  function Announced(out: seq<H2Frame>, sid: u32): nat {
    if out == [] then 0
    else
      var f := out[|out| - 1];
      Announced(out[..|out| - 1], sid) + if f.WindowUpdate? && f.streamId == sid then f.increment else 0
  }

  lemma {:induction false} PingAcksAppend(a: seq<H2Frame>, b: seq<H2Frame>)
    ensures PingAcks(a + b) == PingAcks(a) + PingAcks(b)
    decreases |b|
  {
    if b == [] {
      assert a + b == a;
    } else {
      assert (a + b)[..|a + b| - 1] == a + b[..|b| - 1];
      PingAcksAppend(a, b[..|b| - 1]);
    }
  }

  lemma {:induction false} PingAcksNone(fs: seq<H2Frame>)
    requires forall i :: 0 <= i < |fs| ==> !fs[i].Ping?
    ensures PingAcks(fs) == []
  {
    if fs != [] {
      PingAcksNone(fs[..|fs| - 1]);
    }
  }

  lemma {:induction false} AnnouncedAppend(a: seq<H2Frame>, b: seq<H2Frame>, sid: u32)
    ensures Announced(a + b, sid) == Announced(a, sid) + Announced(b, sid)
    decreases |b|
  {
    if b == [] {
      assert a + b == a;
    } else {
      assert (a + b)[..|a + b| - 1] == a + b[..|b| - 1];
      AnnouncedAppend(a, b[..|b| - 1], sid);
    }
  }

  lemma {:induction false} AnnouncedNone(fs: seq<H2Frame>, sid: u32)
    requires forall i :: 0 <= i < |fs| ==> !(fs[i].WindowUpdate? && fs[i].streamId == sid)
    ensures Announced(fs, sid) == 0
  {
    if fs != [] {
      AnnouncedNone(fs[..|fs| - 1], sid);
    }
  }

  lemma AnnouncedOne(f: H2Frame, sid: u32)
    ensures Announced([f], sid) == if f.WindowUpdate? && f.streamId == sid then f.increment else 0
  {
    assert [f][..0] == [];
  }

  // ---- Settings and errors ------------------------------------------------------------------------

  /** The fields of the connection that only SETTINGS and GOAWAY touch, and the assembler. */
  predicate SameRecord(e: Engine, e': Engine) {
    var c, c' := e.send.conn, e'.send.conn;
    && c'.remote == c.remote && c'.local == c.local && c'.pendingSettings == c.pendingSettings
    && c'.error == c.error && c'.goawayReceived == c.goawayReceived && c'.goawayLastStreamId == c.goawayLastStreamId
    && e'.assembler == e.assembler
  }

  lemma UpdateRecord(e: Engine, sid: u32, increment: u32)
    requires ValidEngine(e)
    ensures SameRecord(e, HandleWindowUpdate(e, sid, increment).0)
  {
    var c := e.send.conn;
    if sid == 0 && UpdateConnSend(c, increment).Some? {
      DrainConn(SendState(UpdateConnSend(c, increment).value, []), e.send.pending);
    } else if sid in c.streams && UpdateSend(c.streams[sid], increment).Some? {
      DrainConn(SendState(WithStream(c, sid, UpdateSend(c.streams[sid], increment).value), []), e.send.pending);
    } else {
      DrainConn(SendState(c, []), e.send.pending);
    }
  }

  lemma CreditRecord(e: Engine, sid: u32, len: nat, initial: u32)
    requires ValidEngine(e)
    ensures SameRecord(e, ReturnCredit(e, sid, len, initial).0)
  {
  }

  lemma DataRecord(e: Engine, sid: u32, data: bytes, endStream: bool, padding: Option<byte>)
    requires ValidEngine(e)
    ensures SameRecord(e, HandleData(e, sid, data, endStream, padding).0)
  {
    var len := FlowLength(data, padding);
    var r := ConsumeConnRecv(e.send.conn, len);
    if r.Some? && !Rejects(r.value, sid, len) {
      var c := r.value;
      var c1 := if sid in c.streams
                then var s := ConsumeRecv(c.streams[sid], len).value;
                     WithStream(c, sid, if endStream then RecvEndStream(s) else s)
                else c;
      CreditRecord(e.WithConn(c1), sid, len, if sid in c.streams then c.streams[sid].initialWindow else DEFAULT_INITIAL_WINDOW);
    }
  }

  /** What a SETTINGS frame does to both sides' settings. */
  lemma SettingsRecord(e: Engine, ack: bool, ps: seq<SettingsParameter>, e': Engine, out: Output)
    requires SettingsHandled(e, ack, ps, e', out)
    ensures var c, c' := e.send.conn, e'.send.conn;
            && SetBy(c.remote, ParamsOf(Settings(ack, ps)), c'.remote)
            && c'.error == c.error && c'.goawayReceived == c.goawayReceived
            && c'.goawayLastStreamId == c.goawayLastStreamId && e'.assembler == e.assembler
            && (if ack then c' == AckSettings(c) else c'.local == c.local && c'.pendingSettings == c.pendingSettings)
  {
    if ack {
      SetByNone(e.send.conn.remote);
    } else {
      var c', ok :| SettingsApplied(e.send.conn, ps, c', ok) && (e', out) == SettingsOutcome(e, c', ok);
      SettingsVerdict(e.send.conn, ps, c', ok);
      ParamsSet(e.send.conn.remote, ps);
      var (remote, all) := ApplyParams(e.send.conn.remote, ps);
      if all {
        var done: set<u32> :| VisitEnds(e.send.conn, remote, done, c', ok);
      }
    }
  }

  lemma OtherRecord(e: Engine, f: H2Frame, decoded: Option<HeaderList>)
    requires ValidEngine(e) && !f.Settings? && !f.GoAway? && !f.Headers? && !f.Continuation?
    ensures SameRecord(e, HandleOther(e, f, decoded).0)
  {
    if f.WindowUpdate? {
      UpdateRecord(e, f.streamId, f.increment);
    } else if f.Data? {
      DataRecord(e, f.streamId, f.data, f.endStream, f.padding);
    }
  }

  lemma AskRecord(e: Engine, r: Request)
    requires ValidEngine(e)
    ensures SameRecord(e, SendRequest(e, r).0)
  {
    if r.body != [] {
      BuildDataConn(e.send.(conn := OpenStream(e.send.conn)), e.send.conn.nextStreamId, r.body, true);
    }
  }

  /** The settings, errors and header frames on record are those of the frames received. */
  ghost predicate OnRecord(e: Engine, heard: seq<Arrival>, profile: seq<SettingsParameter>, blockLimit: nat) {
    var c := e.send.conn;
    var own := ApplyProfile(DEFAULT_SETTINGS.(enablePush := false), profile);
    && SetBy(DEFAULT_SETTINGS, ParamsIn(heard), c.remote)
    && c.error == LastFailure(heard) && c.goawayLastStreamId == LastAdmitted(heard)
    && c.goawayReceived == c.goawayLastStreamId.Some?
    && (if Acked(heard) then c.local == own && c.pendingSettings == []
        else c.local == DEFAULT_SETTINGS.(enablePush := false) && c.pendingSettings == [own])
    && e.assembler == Fed(Assembler(map[], None, blockLimit), HeadersIn(heard))
  }

  lemma RecordStart(profile: seq<SettingsParameter>, windowUpdate: u32, blockLimit: nat, policy: FlowPolicy)
    ensures OnRecord(ClientEngine(profile, windowUpdate, blockLimit, policy), [], profile, blockLimit)
  {
    SetByNone(DEFAULT_SETTINGS);
  }

  /** The frame a history ends with. */
  lemma Latest(heard: seq<Arrival>, a: Arrival)
    ensures (heard + [a])[..|heard + [a]| - 1] == heard && (heard + [a])[|heard + [a]| - 1] == a
    ensures Acked(heard + [a]) <==> Acked(heard) || (a.frame.Settings? && a.frame.ack)
  {
    var all := heard + [a];
    assert forall i :: 0 <= i < |heard| ==> all[i] == heard[i];
    assert all[|heard|] == a;
  }

  lemma RecordSame(e: Engine, e': Engine, heard: seq<Arrival>, a: Arrival, profile: seq<SettingsParameter>, blockLimit: nat)
    requires OnRecord(e, heard, profile, blockLimit) && SameRecord(e, e')
    requires !a.frame.Settings? && !a.frame.GoAway? && !a.frame.Headers? && !a.frame.Continuation?
    ensures OnRecord(e', heard + [a], profile, blockLimit)
  {
    Latest(heard, a);
    assert ParamsIn(heard) + [] == ParamsIn(heard);
    assert HeadersIn(heard) + [] == HeadersIn(heard);
  }

  lemma RecordSettings(e: Engine, e': Engine, out: Output, heard: seq<Arrival>, a: Arrival, profile: seq<SettingsParameter>,
                       blockLimit: nat)
    requires OnRecord(e, heard, profile, blockLimit) && a.frame.Settings?
    requires SettingsHandled(e, a.frame.ack, a.frame.settings, e', out)
    ensures OnRecord(e', heard + [a], profile, blockLimit)
  {
    Latest(heard, a);
    SettingsRecord(e, a.frame.ack, a.frame.settings, e', out);
    SetThen(DEFAULT_SETTINGS, ParamsIn(heard), e.send.conn.remote, ParamsOf(a.frame), e'.send.conn.remote);
    assert HeadersIn(heard) + [] == HeadersIn(heard);
  }

  lemma HeaderRecord(e: Engine, f: H2Frame, decoded: Option<HeaderList>)
    requires f.Headers? || f.Continuation?
    ensures var e' := HandleHeaderFrame(e, f, decoded).0;
            e'.assembler == Push(e.assembler, f).0 && SameRecord(e.(assembler := e'.assembler), e')
  {
  }

  lemma FedNext(a: Assembler, fs: seq<H2Frame>, f: H2Frame)
    requires HeaderFrames(fs) && (f.Headers? || f.Continuation?)
    ensures Fed(a, fs + [f]) == Push(Fed(a, fs), f).0
  {
    assert (fs + [f])[..|fs|] == fs;
  }

  lemma RecordHeaders(e: Engine, heard: seq<Arrival>, a: Arrival, decoded: Option<HeaderList>, profile: seq<SettingsParameter>,
                      blockLimit: nat)
    requires OnRecord(e, heard, profile, blockLimit) && (a.frame.Headers? || a.frame.Continuation?)
    ensures OnRecord(HandleHeaderFrame(e, a.frame, decoded).0, heard + [a], profile, blockLimit)
  {
    Latest(heard, a);
    HeaderRecord(e, a.frame, decoded);
    FedNext(Assembler(map[], None, blockLimit), HeadersIn(heard), a.frame);
    assert ParamsIn(heard) + [] == ParamsIn(heard);
  }

  lemma RecordGone(e: Engine, heard: seq<Arrival>, a: Arrival, decoded: Option<HeaderList>, profile: seq<SettingsParameter>,
                   blockLimit: nat)
    requires ValidEngine(e) && OnRecord(e, heard, profile, blockLimit) && a.frame.GoAway?
    ensures OnRecord(HandleOther(e, a.frame, decoded).0, heard + [a], profile, blockLimit)
  {
    Latest(heard, a);
    assert ParamsIn(heard) + [] == ParamsIn(heard);
    assert HeadersIn(heard) + [] == HeadersIn(heard);
  }

  lemma RecordStep(e: Engine, f: H2Frame, decoded: Option<HeaderList>, e': Engine, out: Output, heard: seq<Arrival>,
                   roomy: bool, profile: seq<SettingsParameter>, blockLimit: nat)
    requires ValidEngine(e) && Handled(e, f, decoded, e', out) && OnRecord(e, heard, profile, blockLimit)
    ensures OnRecord(e', heard + [Arrival(f, roomy)], profile, blockLimit)
  {
    var a := Arrival(f, roomy);
    if f.Settings? {
      RecordSettings(e, e', out, heard, a, profile, blockLimit);
    } else if f.GoAway? {
      RecordGone(e, heard, a, decoded, profile, blockLimit);
    } else if f.Headers? || f.Continuation? {
      RecordHeaders(e, heard, a, decoded, profile, blockLimit);
    } else {
      OtherRecord(e, f, decoded);
      RecordSame(e, e', heard, a, profile, blockLimit);
    }
  }

  // ---- Answers ------------------------------------------------------------------------------------

  lemma CreditKinds(e: Engine, on: u32, len: nat, initial: u32)
    requires ValidEngine(e)
    ensures forall i :: 0 <= i < |ReturnCredit(e, on, len, initial).1| ==> ReturnCredit(e, on, len, initial).1[i].WindowUpdate?
  {
  }

  predicate Pingless(fs: seq<H2Frame>) {
    forall i :: 0 <= i < |fs| ==> !fs[i].Ping?
  }

  lemma DataPingless(e: Engine, sid: u32, data: bytes, endStream: bool, padding: Option<byte>)
    requires ValidEngine(e)
    ensures Pingless(HandleData(e, sid, data, endStream, padding).1.frames)
  {
    var len := FlowLength(data, padding);
    var r := ConsumeConnRecv(e.send.conn, len);
    if r.Some? && !Rejects(r.value, sid, len) {
      var c := r.value;
      var c1 := if sid in c.streams
                then var s := ConsumeRecv(c.streams[sid], len).value;
                     WithStream(c, sid, if endStream then RecvEndStream(s) else s)
                else c;
      CreditKinds(e.WithConn(c1), sid, len, if sid in c.streams then c.streams[sid].initialWindow else DEFAULT_INITIAL_WINDOW);
    }
  }

  lemma UpdatePingless(e: Engine, sid: u32, increment: u32)
    requires ValidEngine(e)
    ensures Pingless(HandleWindowUpdate(e, sid, increment).1.frames)
  {
    var c := e.send.conn;
    if sid == 0 && UpdateConnSend(c, increment).Some? {
      DrainFrames(SendState(UpdateConnSend(c, increment).value, []), e.send.pending);
    } else if sid in c.streams && UpdateSend(c.streams[sid], increment).Some? {
      DrainFrames(SendState(WithStream(c, sid, UpdateSend(c.streams[sid], increment).value), []), e.send.pending);
    } else {
      DrainFrames(SendState(c, []), e.send.pending);
    }
  }

  lemma PingStep(e: Engine, f: H2Frame, decoded: Option<HeaderList>, e': Engine, out: Output)
    requires ValidEngine(e) && Handled(e, f, decoded, e', out)
    ensures PingAcks(out.frames) == if f.Ping? && !f.ack then [f.opaqueData] else []
  {
    if f.Ping? && !f.ack {
      assert out.frames[..0] == [];
    } else {
      if f.Data? {
        DataPingless(e, f.streamId, f.data, f.endStream, f.padding);
      } else if f.WindowUpdate? {
        UpdatePingless(e, f.streamId, f.increment);
      }
      PingAcksNone(out.frames);
    }
  }

  lemma AskPingless(e: Engine, r: Request)
    requires ValidEngine(e)
    ensures PingAcks(SendRequest(e, r).1) == []
  {
    var s, sid := e.send, e.send.conn.nextStreamId;
    SplitHeadOk(sid, r.block, r.priority, s.conn.remote.maxFrameSize, r.body);
    if r.body != [] {
      BuildDataIsGreedy(s.(conn := OpenStream(s.conn)), sid, r.body, true);
    }
    PingAcksNone(SendRequest(e, r).1);
  }

  // ---- Receive credit as the peer sees it ---------------------------------------------------------

  lemma CreditConnView(e: Engine, len: nat, dropped: nat)
    requires ValidEngine(e) && e.send.conn.recvWindow >= 0 && len > 0
    requires RecvInv(e.WithConn(e.send.conn.(recvWindow := e.send.conn.recvWindow + len)), dropped)
    ensures var (e', fs) := CreditConn(e, len); e'.send.conn.recvWindow == e.send.conn.recvWindow + Announced(fs, 0)
  {
    PolicyConserves(e.policy, e.accumulated, 0, len, e.initialRecvWindow);
    var increment := OnDataReceived(e.policy, e.accumulated, 0, len, e.initialRecvWindow).1;
    if increment.Some? {
      AnnouncedOne(WindowUpdate(0, increment.value), 0);
    }
  }

  lemma CreditStreamView(e: Engine, on: u32, len: nat, initial: u32, sid: u32)
    requires ValidEngine(e) && sid != on
    ensures Announced(CreditStream(e, on, len, initial).1, sid) == 0
  {
    AnnouncedNone(CreditStream(e, on, len, initial).1, sid);
  }

  lemma ReturnCreditView(e: Engine, on: u32, len: nat, initial: u32, dropped: nat)
    requires ValidEngine(e) && on != 0 && e.send.conn.recvWindow >= 0
    requires RecvInv(e.WithConn(e.send.conn.(recvWindow := e.send.conn.recvWindow + len)), dropped)
    ensures var (e', fs) := ReturnCredit(e, on, len, initial);
            e'.send.conn.recvWindow == e.send.conn.recvWindow + Announced(fs, 0)
  {
    if len > 0 {
      CreditConnView(e, len, dropped);
      var (e1, fs) := CreditConn(e, len);
      StreamCreditKeepsConn(e1, on, len, initial);
      CreditStreamView(e1, on, len, initial, 0);
      AnnouncedAppend(fs, CreditStream(e1, on, len, initial).1, 0);
    }
  }

  lemma AcceptView(e: Engine, c: Conn, on: u32, data: bytes, endStream: bool, len: nat, dropped: nat)
    requires ValidEngine(e) && on != 0 && RecvInv(e, dropped)
    requires ConsumeConnRecv(e.send.conn, len) == Some(c) && !Rejects(c, on, len)
    ensures var (e', o) := AcceptData(e, c, on, data, endStream, len);
            e'.send.conn.recvWindow == e.send.conn.recvWindow - len + Announced(o.frames, 0)
  {
    var c1 := if on in c.streams
              then var s := ConsumeRecv(c.streams[on], len).value;
                   WithStream(c, on, if endStream then RecvEndStream(s) else s)
              else c;
    var initial := if on in c.streams then c.streams[on].initialWindow else DEFAULT_INITIAL_WINDOW;
    ReturnCreditView(e.WithConn(c1), on, len, initial, dropped);
  }

  lemma DataView(e: Engine, f: H2Frame, dropped: nat)
    requires ValidEngine(e) && f.Data? && f.streamId != 0 && RecvInv(e, dropped)
    ensures var (e', o) := HandleData(e, f.streamId, f.data, f.endStream, f.padding);
            e'.send.conn.recvWindow == e.send.conn.recvWindow + Announced(o.frames, 0)
                                       - if Weight(f) <= e.send.conn.recvWindow then Weight(f) else 0
  {
    var len := FlowLength(f.data, f.padding);
    var r := ConsumeConnRecv(e.send.conn, len);
    if r.Some? && !Rejects(r.value, f.streamId, len) {
      AcceptView(e, r.value, f.streamId, f.data, f.endStream, len, dropped);
    } else {
      AnnouncedNone(HandleData(e, f.streamId, f.data, f.endStream, f.padding).1.frames, 0);
    }
  }

  lemma OtherView(e: Engine, f: H2Frame, decoded: Option<HeaderList>, e': Engine, out: Output, sid: u32)
    requires ValidEngine(e) && Handled(e, f, decoded, e', out) && !f.Data?
    ensures Announced(out.frames, sid) == 0
  {
    if f.WindowUpdate? {
      var c := e.send.conn;
      if f.streamId == 0 && UpdateConnSend(c, f.increment).Some? {
        DrainFrames(SendState(UpdateConnSend(c, f.increment).value, []), e.send.pending);
      } else if f.streamId in c.streams && UpdateSend(c.streams[f.streamId], f.increment).Some? {
        DrainFrames(SendState(WithStream(c, f.streamId, UpdateSend(c.streams[f.streamId], f.increment).value), []), e.send.pending);
      } else {
        DrainFrames(SendState(c, []), e.send.pending);
      }
    }
    AnnouncedNone(out.frames, sid);
  }

  lemma ViewStep(e: Engine, f: H2Frame, decoded: Option<HeaderList>, e': Engine, out: Output, dropped: nat)
    requires ValidEngine(e) && Handled(e, f, decoded, e', out) && RecvInv(e, dropped) && (f.Data? ==> f.streamId != 0)
    ensures e'.send.conn.recvWindow == e.send.conn.recvWindow + Announced(out.frames, 0)
                                       - if Weight(f) <= e.send.conn.recvWindow then Weight(f) else 0
  {
    if f.Data? {
      DataView(e, f, dropped);
    } else {
      OtherView(e, f, decoded, e', out, 0);
      HandledFixed(e, f, decoded, e', out);
    }
  }

  lemma AskView(e: Engine, r: Request, sid: u32)
    requires ValidEngine(e)
    ensures Announced(SendRequest(e, r).1, sid) == 0
  {
    var s, on := e.send, e.send.conn.nextStreamId;
    SplitHeadOk(on, r.block, r.priority, s.conn.remote.maxFrameSize, r.body);
    if r.body != [] {
      BuildDataIsGreedy(s.(conn := OpenStream(s.conn)), on, r.body, true);
    }
    AnnouncedNone(SendRequest(e, r).1, sid);
  }

  // ---- Stream states ------------------------------------------------------------------------------

  /** Streams are opened when made: they are never idle or reserved. */
  predicate Started(c: Conn) {
    forall sid :: sid in c.streams ==>
      var s := c.streams[sid].state; s.Open? || s.HalfClosedLocal? || s.HalfClosedRemote? || s.Closed?
  }

  lemma BuildStarted(s: SendState, on: u32, data: bytes, fin: bool)
    requires s.conn.remote.maxFrameSize > 0 && Started(s.conn)
    ensures Started(BuildData(s, on, data, fin).0.conn) && BuildData(s, on, data, fin).0.conn.remote == s.conn.remote
  {
    if data != [] {
      BuildDataConn(s, on, data, fin);
    }
  }

  lemma {:induction false} DrainStarted(s: SendState, todo: seq<PendingBody>)
    requires s.conn.remote.maxFrameSize > 0 && Started(s.conn)
    ensures Started(Drain(s, todo).0.conn)
    decreases |todo|
  {
    if todo != [] {
      BuildStarted(s, todo[0].streamId, todo[0].data, todo[0].endStream);
      DrainStarted(BuildData(s, todo[0].streamId, todo[0].data, todo[0].endStream).0, todo[1..]);
    }
  }

  lemma UpdateStarted(e: Engine, on: u32, increment: u32)
    requires ValidEngine(e) && Started(e.send.conn)
    ensures Started(HandleWindowUpdate(e, on, increment).0.send.conn)
  {
    var c := e.send.conn;
    if increment != 0 && on == 0 && UpdateConnSend(c, increment).Some? {
      DrainStarted(SendState(UpdateConnSend(c, increment).value, []), e.send.pending);
    } else if increment != 0 && on != 0 && on in c.streams && UpdateSend(c.streams[on], increment).Some? {
      DrainStarted(SendState(WithStream(c, on, UpdateSend(c.streams[on], increment).value), []), e.send.pending);
    } else if increment != 0 && on != 0 && on !in c.streams {
      DrainStarted(SendState(c, []), e.send.pending);
    }
  }

  lemma CreditStarted(e: Engine, on: u32, len: nat, initial: u32)
    requires ValidEngine(e) && Started(e.send.conn)
    ensures Started(ReturnCredit(e, on, len, initial).0.send.conn)
  {
  }

  lemma DataStarted(e: Engine, sid: u32, data: bytes, endStream: bool, padding: Option<byte>)
    requires ValidEngine(e) && Started(e.send.conn)
    ensures Started(HandleData(e, sid, data, endStream, padding).0.send.conn)
  {
    var len := FlowLength(data, padding);
    var r := ConsumeConnRecv(e.send.conn, len);
    if r.Some? && !Rejects(r.value, sid, len) {
      var c := r.value;
      var c1 := if sid in c.streams
                then var s := ConsumeRecv(c.streams[sid], len).value;
                     WithStream(c, sid, if endStream then RecvEndStream(s) else s)
                else c;
      CreditStarted(e.WithConn(c1), sid, len, if sid in c.streams then c.streams[sid].initialWindow else DEFAULT_INITIAL_WINDOW);
    }
  }

  lemma SettingsStarted(e: Engine, ack: bool, ps: seq<SettingsParameter>, e': Engine, out: Output)
    requires SettingsHandled(e, ack, ps, e', out) && Started(e.send.conn)
    ensures Started(e'.send.conn)
  {
    if !ack {
      var c', ok :| SettingsApplied(e.send.conn, ps, c', ok) && (e', out) == SettingsOutcome(e, c', ok);
      var (remote, all) := ApplyParams(e.send.conn.remote, ps);
      if all {
        var done: set<u32> :| VisitEnds(e.send.conn, remote, done, c', ok);
      }
    }
  }

  lemma StartedStep(e: Engine, f: H2Frame, decoded: Option<HeaderList>, e': Engine, out: Output)
    requires ValidEngine(e) && Handled(e, f, decoded, e', out) && Started(e.send.conn)
    ensures Started(e'.send.conn)
  {
    if f.WindowUpdate? {
      UpdateStarted(e, f.streamId, f.increment);
    } else if f.Data? {
      DataStarted(e, f.streamId, f.data, f.endStream, f.padding);
    } else if f.Settings? {
      SettingsStarted(e, f.ack, f.settings, e', out);
    }
  }

  lemma AskStarted(e: Engine, r: Request)
    requires ValidEngine(e) && Started(e.send.conn)
    ensures Started(SendRequest(e, r).0.send.conn)
  {
    if r.body != [] {
      BuildStarted(e.send.(conn := OpenStream(e.send.conn)), e.send.conn.nextStreamId, r.body, true);
    }
  }

  // ---- Runs ---------------------------------------------------------------------------------------

  /** The state as the wire tells it, for an engine started with this profile. */
  ghost predicate Told(w: World, profile: seq<SettingsParameter>, windowUpdate: u32, blockLimit: nat) {
    && OnRecord(w.engine, w.heard, profile, blockLimit)
    && PingAcks(w.out) == PingsIn(w.heard)
    && w.engine.send.conn.recvWindow == 65535 + windowUpdate + Announced(w.out, 0) - FlowIn(w.heard)
    && Started(w.engine.send.conn)
  }

  lemma ToldStart(w: World, profile: seq<SettingsParameter>, windowUpdate: u32, blockLimit: nat, policy: FlowPolicy)
    requires Start(w, profile, windowUpdate, blockLimit, policy)
    ensures Told(w, profile, windowUpdate, blockLimit)
  {
    RecordStart(profile, windowUpdate, blockLimit, policy);
  }

  lemma ToldAsk(w: World, r: Request, profile: seq<SettingsParameter>, windowUpdate: u32, blockLimit: nat)
    requires ValidEngine(w.engine) && Told(w, profile, windowUpdate, blockLimit)
    ensures Told(AfterAsk(w, r), profile, windowUpdate, blockLimit)
  {
    AskRecord(w.engine, r);
    AskPingless(w.engine, r);
    AskView(w.engine, r, 0);
    AskNoCredit(w.engine, r);
    AskStarted(w.engine, r);
    PingAcksAppend(w.out, SendRequest(w.engine, r).1);
    AnnouncedAppend(w.out, SendRequest(w.engine, r).1, 0);
  }

  lemma ToldReceive(w: World, f: H2Frame, decoded: Option<HeaderList>, o: Output, w': World,
                    profile: seq<SettingsParameter>, windowUpdate: u32, blockLimit: nat)
    requires Inv(w) && Next(w, Receive(f, decoded, o), w') && Told(w, profile, windowUpdate, blockLimit)
    ensures Told(w', profile, windowUpdate, blockLimit)
  {
    var a := Arrival(f, Weight(f) <= w.engine.send.conn.recvWindow);
    RecordStep(w.engine, f, decoded, w'.engine, o, w.heard, a.roomy, profile, blockLimit);
    PingStep(w.engine, f, decoded, w'.engine, o);
    ViewStep(w.engine, f, decoded, w'.engine, o, w.dropped);
    StartedStep(w.engine, f, decoded, w'.engine, o);
    Latest(w.heard, a);
    PingAcksAppend(w.out, o.frames);
    AnnouncedAppend(w.out, o.frames, 0);
  }

  lemma ToldNext(ws: seq<World>, ls: seq<Label>, profile: seq<SettingsParameter>, windowUpdate: u32,
                 blockLimit: nat, policy: FlowPolicy, i: nat)
    requires Run(ws, ls, profile, windowUpdate, blockLimit, policy) && i < |ls|
    requires Told(ws[i], profile, windowUpdate, blockLimit)
    ensures Told(ws[i + 1], profile, windowUpdate, blockLimit)
  {
    RunInv(ws, ls, profile, windowUpdate, blockLimit, policy, i);
    match ls[i]
    case Ask(r) => ToldAsk(ws[i], r, profile, windowUpdate, blockLimit);
    case Receive(f, decoded, o) => ToldReceive(ws[i], f, decoded, o, ws[i + 1], profile, windowUpdate, blockLimit);
  }

  /** In every state of every run. */
  lemma RunTold(ws: seq<World>, ls: seq<Label>, profile: seq<SettingsParameter>, windowUpdate: u32,
                blockLimit: nat, policy: FlowPolicy, i: nat)
    requires Run(ws, ls, profile, windowUpdate, blockLimit, policy) && i < |ws|
    ensures Told(ws[i], profile, windowUpdate, blockLimit)
  {
    var keeps := (w: World) => Told(w, profile, windowUpdate, blockLimit);
    ToldStart(ws[0], profile, windowUpdate, blockLimit, policy);
    forall j | 0 <= j < i && keeps(ws[j])
      ensures keeps(ws[j + 1])
    {
      ToldNext(ws, ls, profile, windowUpdate, blockLimit, policy, j);
    }
    KeptAlong(ws, keeps, 0, i);
  }

  /** The same of any reachable state, whatever it started from. */
  lemma ReachableTold(w: World) returns (profile: seq<SettingsParameter>, windowUpdate: u32, blockLimit: nat)
    requires Reachable(w)
    ensures Told(w, profile, windowUpdate, blockLimit) && w.engine.initialRecvWindow == 65535 + windowUpdate
  {
    var ws, ls, p, u, b, policy :| Reaches(ws, ls, p, u, b, policy, w);
    RunTold(ws, ls, p, u, b, policy, |ls|);
    RunInv(ws, ls, p, u, b, policy, |ls|);
    CreditAlong(ws, ls, p, u, b, policy, 0, |ls|);
    profile, windowUpdate, blockLimit := p, u, b;
  }

  // ---- The laws -----------------------------------------------------------------------------------

  /** The settings in force are those the peer sent: each is the last legal value received with its id, up
      to the first illegal parameter of each frame, or the default. */
  lemma PeerSettings(w: World)
    requires Reachable(w)
    ensures SetBy(DEFAULT_SETTINGS, ParamsIn(w.heard), w.engine.send.conn.remote)
  {
    var _, _, _ := ReachableTold(w);
  }

  /** Our own settings are the profile's: pending until the first acknowledgement, in force after it. A
      stream opened at any time has the window we announced. */
  lemma OwnSettings(ws: seq<World>, ls: seq<Label>, profile: seq<SettingsParameter>, windowUpdate: u32,
                    blockLimit: nat, policy: FlowPolicy, i: nat)
    requires Run(ws, ls, profile, windowUpdate, blockLimit, policy) && i < |ws|
    ensures var c := ws[i].engine.send.conn;
            && EffectiveLocalWindow(c) == Or(LastLegal(profile, 4), 65535)
            && SetBy(DEFAULT_SETTINGS.(enablePush := false), if Acked(ws[i].heard) then profile else [], c.local)
            && |c.pendingSettings| == if Acked(ws[i].heard) then 0 else 1
  {
    RunTold(ws, ls, profile, windowUpdate, blockLimit, policy, i);
    ProfileSets(DEFAULT_SETTINGS.(enablePush := false), profile);
    SetByNone(DEFAULT_SETTINGS.(enablePush := false));
  }

  /** The connection has failed exactly when a GOAWAY with a non-zero code came in. */
  lemma FailedIff(w: World)
    requires Reachable(w)
    ensures w.engine.send.conn.error == LastFailure(w.heard)
    ensures w.engine.send.conn.error.Some?
            <==> exists i :: 0 <= i < |w.heard| && w.heard[i].frame.GoAway? && w.heard[i].frame.errorCode != 0
  {
    var _, _, _ := ReachableTold(w);
    LastFailureIff(w.heard);
  }

  lemma {:induction false} LastFailureIff(heard: seq<Arrival>)
    ensures LastFailure(heard).Some?
            <==> exists i :: 0 <= i < |heard| && heard[i].frame.GoAway? && heard[i].frame.errorCode != 0
  {
    if heard != [] {
      LastFailureIff(heard[..|heard| - 1]);
    }
  }

  /** Every PING is answered once, in order, with its own data. */
  lemma PingsEchoed(w: World)
    requires Reachable(w)
    ensures PingAcks(w.out) == PingsIn(w.heard)
  {
    var _, _, _ := ReachableTold(w);
  }

  /** The peer's view of the connection's credit is the engine's: what was announced at first and since, less
      the bytes of the DATA frames taken, padding included. */
  lemma ConnectionCredit(ws: seq<World>, ls: seq<Label>, profile: seq<SettingsParameter>, windowUpdate: u32,
                         blockLimit: nat, policy: FlowPolicy, i: nat)
    requires Run(ws, ls, profile, windowUpdate, blockLimit, policy) && i < |ws|
    ensures 65535 + windowUpdate + Announced(ws[i].out, 0) - FlowIn(ws[i].heard) == ws[i].engine.send.conn.recvWindow
  {
    RunTold(ws, ls, profile, windowUpdate, blockLimit, policy, i);
  }

  /** The streams counted against the peer's limit are those on which one side may still send. */
  lemma ActiveIff(w: World, sid: u32)
    requires Reachable(w)
    ensures sid in ActiveStreams(w.engine.send.conn.streams)
            <==> sid in w.engine.send.conn.streams
                 && var s := w.engine.send.conn.streams[sid].state; s.Open? || s.HalfClosedLocal? || s.HalfClosedRemote?
  {
    var _, _, _ := ReachableTold(w);
  }

  /** Header blocks come out as the frames received determine, whatever they are interleaved with. */
  lemma HeadersFollow(ws: seq<World>, ls: seq<Label>, profile: seq<SettingsParameter>, windowUpdate: u32,
                      blockLimit: nat, policy: FlowPolicy, i: nat, f: H2Frame)
    requires Run(ws, ls, profile, windowUpdate, blockLimit, policy) && i < |ws| && (f.Headers? || f.Continuation?)
    ensures Push(ws[i].engine.assembler, f).1 == Outcome(HeadersIn(ws[i].heard) + [f], blockLimit)
  {
    RunTold(ws, ls, profile, windowUpdate, blockLimit, policy, i);
    var fs := HeadersIn(ws[i].heard) + [f];
    AssemblerFollows(blockLimit, fs);
    assert fs[..|fs| - 1] == HeadersIn(ws[i].heard);
  }

  /** What a policy announces for `len` bytes when `held` are held back. */
  function Due(p: FlowPolicy, held: nat, len: nat, window: u32): nat {
    if p.Immediate? then len else if held + len >= p.limit(window) then held + len else 0
  }

  lemma DueOnStream(e: Engine, sid: u32, len: nat, window: u32)
    requires ValidEngine(e) && len > 0
    ensures Announced(CreditStream(e, sid, len, window).1, sid)
            == Due(e.policy, Held(e.accumulated, sid), len, window) % 0x1_0000_0000
  {
    var increment := OnDataReceived(e.policy, e.accumulated, sid, len, window).1;
    if increment.Some? {
      AnnouncedOne(WindowUpdate(sid, increment.value % 0x1_0000_0000), sid);
    }
  }

  lemma DueOnReturn(e: Engine, sid: u32, len: nat, window: u32)
    requires ValidEngine(e) && len > 0 && sid != 0
    ensures Announced(ReturnCredit(e, sid, len, window).1, sid)
            == Due(e.policy, Held(e.accumulated, sid), len, window) % 0x1_0000_0000
  {
    var (e1, fs) := CreditConn(e, len);
    CreditConnOnStream(e, len, sid);
    CreditConnAccount(e, len, sid);
    AnnouncedAppend(fs, CreditStream(e1, sid, len, window).1, sid);
    DueOnStream(e1, sid, len, window);
  }

  /** On a stream that is not in the table credit is announced too, by the threshold of the default window. */
  lemma UnknownAnnounces(e: Engine, f: H2Frame)
    requires ValidEngine(e) && f.Data? && f.streamId != 0 && f.streamId !in e.send.conn.streams
    requires 0 < Weight(f) <= e.send.conn.recvWindow
    ensures Announced(HandleData(e, f.streamId, f.data, f.endStream, f.padding).1.frames, f.streamId)
            == Due(e.policy, Held(e.accumulated, f.streamId), Weight(f), 65535) % 0x1_0000_0000
  {
    var len := FlowLength(f.data, f.padding);
    assert len == Weight(f);
    DueOnReturn(e.WithConn(ConsumeConnRecv(e.send.conn, len).value), f.streamId, len, 65535);
  }

  // ---- A stream's credit as the peer sees it ------------------------------------------------------

  lemma CreditConnOnStream(e: Engine, len: nat, sid: u32)
    requires ValidEngine(e) && sid != 0
    ensures Announced(CreditConn(e, len).1, sid) == 0 && CreditConn(e, len).0.send.conn.streams == e.send.conn.streams
  {
    AnnouncedNone(CreditConn(e, len).1, sid);
  }

  /** An increment is announced and applied, or announced and too large for the window. */
  lemma CreditOwnStream(e: Engine, sid: u32, len: nat, initial: u32)
    requires ValidEngine(e) && sid in e.send.conn.streams && len > 0 && 0 <= e.send.conn.streams[sid].recvWindow
    requires e.policy.Immediate? ==> e.accumulated == map[]
    ensures var (e', fs) := CreditStream(e, sid, len, initial);
            && sid in e'.send.conn.streams
            && var now := e.send.conn.streams[sid].recvWindow + Announced(fs, sid);
               && e'.send.conn.streams[sid].recvWindow <= now
               && (Account(e, sid) + len <= I32_MAX ==> e'.send.conn.streams[sid].recvWindow == now)
  {
    var increment := OnDataReceived(e.policy, e.accumulated, sid, len, initial).1;
    if increment.Some? {
      AnnouncedOne(WindowUpdate(sid, increment.value % 0x1_0000_0000), sid);
    }
  }

  lemma CreditOtherStream(e: Engine, on: u32, len: nat, initial: u32, sid: u32)
    requires ValidEngine(e) && sid in e.send.conn.streams && on != sid
    ensures var (e', fs) := CreditStream(e, on, len, initial);
            && sid in e'.send.conn.streams && Announced(fs, sid) == 0
            && e'.send.conn.streams[sid].recvWindow == e.send.conn.streams[sid].recvWindow
  {
    CreditStreamView(e, on, len, initial, sid);
  }

  lemma ReturnOnStream(e: Engine, on: u32, len: nat, initial: u32, sid: u32)
    requires ValidEngine(e) && sid != 0 && sid in e.send.conn.streams && 0 <= e.send.conn.streams[sid].recvWindow
    requires e.policy.Immediate? ==> e.accumulated == map[]
    ensures var (e', fs) := ReturnCredit(e, on, len, initial);
            && sid in e'.send.conn.streams
            && var now := e.send.conn.streams[sid].recvWindow + Announced(fs, sid);
               && e'.send.conn.streams[sid].recvWindow <= now
               && (Account(e, sid) + (if on == sid then len else 0) <= I32_MAX ==>
                     e'.send.conn.streams[sid].recvWindow == now)
  {
    if len > 0 {
      CreditConnOnStream(e, len, sid);
      CreditConnAccount(e, len, sid);
      var (e1, fs) := CreditConn(e, len);
      AnnouncedAppend(fs, CreditStream(e1, on, len, initial).1, sid);
      if on == sid {
        CreditOwnStream(e1, sid, len, initial);
      } else {
        CreditOtherStream(e1, on, len, initial, sid);
      }
    }
  }

  /** The stream's window follows what was announced on it and taken from it. */
  predicate Follows(e: Engine, e': Engine, fs: seq<H2Frame>, taken: nat, sid: u32) {
    && sid in e.send.conn.streams && sid in e'.send.conn.streams
    && var now := e.send.conn.streams[sid].recvWindow + Announced(fs, sid) - taken;
       && e'.send.conn.streams[sid].recvWindow <= now
       && (Account(e, sid) <= I32_MAX ==> e'.send.conn.streams[sid].recvWindow == now)
  }

  function TakenOn(e: Engine, f: H2Frame, sid: u32): nat {
    if f.Data? && f.streamId == sid && Weight(f) <= e.send.conn.recvWindow then Weight(f) else 0
  }

  lemma AcceptFollows(e: Engine, c: Conn, on: u32, data: bytes, endStream: bool, len: nat, sid: u32)
    requires ValidEngine(e) && sid != 0 && Regular(e, sid)
    requires ConsumeConnRecv(e.send.conn, len) == Some(c) && !Rejects(c, on, len)
    requires Receiving(AcceptData(e, c, on, data, endStream, len).0, sid)
    ensures var (e', o) := AcceptData(e, c, on, data, endStream, len);
            Follows(e, e', o.frames, if on == sid then len else 0, sid)
  {
    var c1 := if on in c.streams
              then var s := ConsumeRecv(c.streams[on], len).value;
                   WithStream(c, on, if endStream then RecvEndStream(s) else s)
              else c;
    var initial := if on in c.streams then c.streams[on].initialWindow else DEFAULT_INITIAL_WINDOW;
    ReturnOnStream(e.WithConn(c1), on, len, initial, sid);
  }

  lemma DataFollows(e: Engine, f: H2Frame, sid: u32)
    requires ValidEngine(e) && f.Data? && sid != 0 && Regular(e, sid)
    requires Receiving(HandleData(e, f.streamId, f.data, f.endStream, f.padding).0, sid) && 0 <= e.send.conn.recvWindow
    ensures var (e', o) := HandleData(e, f.streamId, f.data, f.endStream, f.padding);
            Follows(e, e', o.frames, TakenOn(e, f, sid), sid)
  {
    var len := FlowLength(f.data, f.padding);
    var r := ConsumeConnRecv(e.send.conn, len);
    if r.Some? && !Rejects(r.value, f.streamId, len) {
      AcceptFollows(e, r.value, f.streamId, f.data, f.endStream, len, sid);
    } else {
      AnnouncedNone(HandleData(e, f.streamId, f.data, f.endStream, f.padding).1.frames, sid);
    }
  }

  lemma HandledFollows(e: Engine, f: H2Frame, decoded: Option<HeaderList>, e': Engine, out: Output, sid: u32)
    requires ValidEngine(e) && Handled(e, f, decoded, e', out) && sid != 0 && Regular(e, sid)
    requires Receiving(e', sid) && 0 <= e.send.conn.recvWindow
    ensures Follows(e, e', out.frames, TakenOn(e, f, sid), sid)
  {
    if f.Data? {
      DataFollows(e, f, sid);
    } else {
      OtherView(e, f, decoded, e', out, sid);
      OtherReceivers(e, f, decoded, e', out);
    }
  }

  lemma AskFollows(e: Engine, r: Request, sid: u32)
    requires ValidEngine(e) && sid != e.send.conn.nextStreamId && Receiving(SendRequest(e, r).0, sid)
    ensures Follows(e, SendRequest(e, r).0, SendRequest(e, r).1, 0, sid)
  {
    AskView(e, r, sid);
    AskAccount(e, r, sid);
  }

  /** A stream opened in `w0` with this size and balance, as the peer sees it in `w`. */
  ghost predicate Seen(w0: World, w: World, sid: u32, size: nat, balance: nat) {
    && Ledger(w, sid, balance) && w0.out <= w.out && w0.heard <= w.heard
    && (Receiving(w.engine, sid) ==>
          var view := size + Announced(w.out[|w0.out|..], sid) - FlowOn(w.heard[|w0.heard|..], sid);
          && w.engine.send.conn.streams[sid].recvWindow <= view
          && (balance <= I32_MAX ==> w.engine.send.conn.streams[sid].recvWindow == view))
  }

  lemma FlowOnNext(heard: seq<Arrival>, a: Arrival, sid: u32)
    ensures FlowOn(heard + [a], sid)
            == FlowOn(heard, sid) + if a.roomy && a.frame.Data? && a.frame.streamId == sid then Weight(a.frame) else 0
  {
    Latest(heard, a);
  }

  lemma SeenGrows(w0: World, w: World, fs: seq<H2Frame>, more: seq<Arrival>, sid: u32)
    requires w0.out <= w.out && w0.heard <= w.heard && |more| <= 1
    ensures w0.out <= w.out + fs && w0.heard <= w.heard + more
    ensures Announced((w.out + fs)[|w0.out|..], sid) == Announced(w.out[|w0.out|..], sid) + Announced(fs, sid)
    ensures FlowOn((w.heard + more)[|w0.heard|..], sid)
            == FlowOn(w.heard[|w0.heard|..], sid)
               + if more != [] && more[0].roomy && more[0].frame.Data? && more[0].frame.streamId == sid
                 then Weight(more[0].frame) else 0
  {
    assert (w.out + fs)[|w0.out|..] == w.out[|w0.out|..] + fs;
    AnnouncedAppend(w.out[|w0.out|..], fs, sid);
    if more == [] {
      assert w.heard + more == w.heard;
    } else {
      assert (w.heard + more)[|w0.heard|..] == w.heard[|w0.heard|..] + [more[0]];
      FlowOnNext(w.heard[|w0.heard|..], more[0], sid);
    }
  }

  lemma SeenMoves(w0: World, w: World, w': World, fs: seq<H2Frame>, more: seq<Arrival>, sid: u32, size: nat, balance: nat)
    requires Seen(w0, w, sid, size, balance) && Ledger(w', sid, balance)
    requires w'.out == w.out + fs && w'.heard == w.heard + more && |more| <= 1
    requires Receiving(w'.engine, sid) ==>
               && Receiving(w.engine, sid)
               && Follows(w.engine, w'.engine, fs,
                          if more != [] && more[0].roomy && more[0].frame.Data? && more[0].frame.streamId == sid
                          then Weight(more[0].frame) else 0, sid)
    ensures Seen(w0, w', sid, size, balance)
  {
    SeenGrows(w0, w, fs, more, sid);
  }

  lemma ReceiveFollows(w: World, f: H2Frame, decoded: Option<HeaderList>, o: Output, w': World, sid: u32)
    requires Inv(w) && Next(w, Receive(f, decoded, o), w') && Receiving(w'.engine, sid) && sid in w.reqs
    ensures Receiving(w.engine, sid)
    ensures Regular(w.engine, sid) ==> Follows(w.engine, w'.engine, o.frames, TakenOn(w.engine, f, sid), sid)
  {
    TableFacts(w);
    NextAccount(w, Receive(f, decoded, o), w', sid);
    if Regular(w.engine, sid) {
      HandledFollows(w.engine, f, decoded, w'.engine, o, sid);
    }
  }

  lemma SeenReceive(w0: World, w: World, f: H2Frame, decoded: Option<HeaderList>, o: Output, w': World, sid: u32,
                    size: nat, balance: nat)
    requires Inv(w) && Next(w, Receive(f, decoded, o), w') && Seen(w0, w, sid, size, balance)
    ensures Seen(w0, w', sid, size, balance)
  {
    LedgerStays(w, Receive(f, decoded, o), w', sid, balance);
    if Receiving(w'.engine, sid) {
      ReceiveFollows(w, f, decoded, o, w', sid);
    }
    SeenMoves(w0, w, w', o.frames, [Arrival(f, Weight(f) <= w.engine.send.conn.recvWindow)], sid, size, balance);
  }

  lemma AskKeepsView(w: World, r: Request, w': World, sid: u32)
    requires Inv(w) && Next(w, Ask(r), w') && Receiving(w'.engine, sid) && sid in w.reqs
    ensures Receiving(w.engine, sid) && Follows(w.engine, w'.engine, SendRequest(w.engine, r).1, 0, sid)
  {
    FreshId(w.engine.send.conn, w.reqs, w.opens);
    NextAccount(w, Ask(r), w', sid);
    AskFollows(w.engine, r, sid);
  }

  lemma SeenAsk(w0: World, w: World, r: Request, w': World, sid: u32, size: nat, balance: nat)
    requires Inv(w) && Next(w, Ask(r), w') && Seen(w0, w, sid, size, balance)
    ensures Seen(w0, w', sid, size, balance)
  {
    LedgerStays(w, Ask(r), w', sid, balance);
    if Receiving(w'.engine, sid) {
      AskKeepsView(w, r, w', sid);
    }
    SeenMoves(w0, w, w', SendRequest(w.engine, r).1, [], sid, size, balance);
  }

  lemma SeenNext(ws: seq<World>, ls: seq<Label>, profile: seq<SettingsParameter>, windowUpdate: u32, blockLimit: nat,
                 policy: FlowPolicy, w0: World, j: nat, sid: u32, size: nat, balance: nat)
    requires Run(ws, ls, profile, windowUpdate, blockLimit, policy) && j < |ls| && Seen(w0, ws[j], sid, size, balance)
    ensures Seen(w0, ws[j + 1], sid, size, balance)
  {
    RunInv(ws, ls, profile, windowUpdate, blockLimit, policy, j);
    match ls[j]
    case Ask(r) => SeenAsk(w0, ws[j], r, ws[j + 1], sid, size, balance);
    case Receive(f, decoded, o) => SeenReceive(w0, ws[j], f, decoded, o, ws[j + 1], sid, size, balance);
  }

  lemma SeenAlong(ws: seq<World>, ls: seq<Label>, profile: seq<SettingsParameter>, windowUpdate: u32, blockLimit: nat,
                  policy: FlowPolicy, a: nat, i: nat, sid: u32, size: nat, balance: nat)
    requires Run(ws, ls, profile, windowUpdate, blockLimit, policy) && a <= i < |ws| && Seen(ws[a], ws[a], sid, size, balance)
    ensures Seen(ws[a], ws[i], sid, size, balance)
  {
    var keeps := (w: World) => Seen(ws[a], w, sid, size, balance);
    forall j | a <= j < i && keeps(ws[j])
      ensures keeps(ws[j + 1])
    {
      SeenNext(ws, ls, profile, windowUpdate, blockLimit, policy, ws[a], j, sid, size, balance);
    }
    KeptAlong(ws, keeps, a, i);
  }

  lemma SeenFirst(w: World, r: Request, w': World, sid: u32)
    requires Inv(w) && Next(w, Ask(r), w') && Opens(w, Ask(r), sid)
    ensures Seen(w', w', sid, EffectiveLocalWindow(w.engine.send.conn), OpeningBalance(w.engine, sid))
  {
    LedgerOpens(w, Ask(r), w', sid);
    assert w'.out[|w'.out|..] == [] && w'.heard[|w'.heard|..] == [];
    if Receiving(w'.engine, sid) {
      AskAccount(w.engine, r, sid);
    }
  }

  /** The peer's view of a stream's credit, from its opening for as long as the peer may send on it: the
      size announced in our SETTINGS and what was announced since, less the bytes of its DATA frames,
      padding included. It is the engine's window as long as the stream's balance fits 31 bits, and never
      less than it. */
  lemma StreamCreditSeen(ws: seq<World>, ls: seq<Label>, profile: seq<SettingsParameter>, windowUpdate: u32,
                         blockLimit: nat, policy: FlowPolicy, a: nat, i: nat, sid: u32)
    requires Run(ws, ls, profile, windowUpdate, blockLimit, policy) && a < i < |ws| && Opens(ws[a], ls[a], sid)
    requires Receiving(ws[i].engine, sid)
    ensures ws[a + 1].out <= ws[i].out && ws[a + 1].heard <= ws[i].heard
    ensures var view := Or(LastLegal(profile, 4), 65535) + Announced(ws[i].out[|ws[a + 1].out|..], sid)
                        - FlowOn(ws[i].heard[|ws[a + 1].heard|..], sid);
            && ws[i].engine.send.conn.streams[sid].recvWindow <= view
            && (OpeningBalance(ws[a].engine, sid) <= I32_MAX ==> ws[i].engine.send.conn.streams[sid].recvWindow == view)
  {
    RunInv(ws, ls, profile, windowUpdate, blockLimit, policy, a);
    OwnSettings(ws, ls, profile, windowUpdate, blockLimit, policy, a);
    SeenFirst(ws[a], ls[a].request, ws[a + 1], sid);
    SeenAlong(ws, ls, profile, windowUpdate, blockLimit, policy, a + 1, i, sid,
              EffectiveLocalWindow(ws[a].engine.send.conn), OpeningBalance(ws[a].engine, sid));
  }
}
