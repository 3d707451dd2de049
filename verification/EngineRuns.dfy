/** Runs of the whole engine, and the laws that hold in every state of every run. */
module EngineRuns {
  import opened Wire
  import opened Frames
  import opened Codec
  import opened HeaderBlocks
  import opened Streams
  import opened Connection
  import opened Sender
  import opened Policy
  import opened Engine
  import opened Runs
  import opened SendRuns

  // ---- Each handler keeps the send-side invariant -----------------------------------------------

  /** The credit a WINDOW_UPDATE adds: all of it when accepted, none when it is refused or names a
      stream that is not in the table. */
  function GrantsOf(e: Engine, f: H2Frame): seq<Grant> {
    if !f.WindowUpdate? || f.increment == 0 then []
    else if f.streamId == 0 then
      if UpdateConnSend(e.send.conn, f.increment).Some? then [Grant(0, f.increment)] else []
    else if f.streamId in e.send.conn.streams && UpdateSend(e.send.conn.streams[f.streamId], f.increment).Some?
    then [Grant(f.streamId, f.increment)]
    else []
  }

  predicate TableInRange(t: Table) {
    forall sid :: sid in t ==> InRange(t[sid])
  }

  predicate QuietTable(t: Table, t': Table, fs: seq<H2Frame>) {
    forall sid :: sid in t' ==> sid in t && QuietChange(t[sid], t'[sid], sid, fs)
  }

  lemma SameTableQuiet(s: SendState, c: Conn, out: seq<H2Frame>, fs: seq<H2Frame>, grants: seq<Grant>,
                       reqs: map<u32, Opened>)
    requires SendInv(s, [], out, grants, reqs) && Control(fs)
    requires c.sendWindow == s.conn.sendWindow && SettingsOk(c) && c.streams == s.conn.streams
    ensures SendInv(s.(conn := c), [], out + fs, grants, reqs)
  {
    QuietStep(s, c, out, fs, grants, reqs);
  }

  lemma RstQuiet(c: Conn, sid: u32, fs: seq<H2Frame>)
    requires TableInRange(c.streams) && |fs| == 1 && fs[0].RstStream? && fs[0].streamId == sid
    ensures QuietTable(c.streams, ResetStream(c, sid).streams, fs)
  {
    assert fs[0].RstStream? && WasReset(fs, sid);
  }

  /** `emit_rst_stream` keeps the invariant: the closed stream is accounted for by the frame. */
  lemma RstKeeps(s: SendState, sid: u32, code: u32, out: seq<H2Frame>, grants: seq<Grant>, reqs: map<u32, Opened>)
    requires SendInv(s, [], out, grants, reqs)
    ensures SendInv(s.(conn := ResetStream(s.conn, sid)), [], out + [RstStream(sid, code)], grants, reqs)
  {
    var fs := [RstStream(sid, code)];
    RstQuiet(s.conn, sid, fs);
    QuietStep(s, ResetStream(s.conn, sid), out, fs, grants, reqs);
  }

  lemma DrainAllKeeps(e: Engine, sid: u32, increment: u32, out: seq<H2Frame>, grants: seq<Grant>, reqs: map<u32, Opened>)
    requires ValidEngine(e) && SendInv(e.send, [], out, grants, reqs)
    ensures var (e', o) := DrainAfterUpdate(e, sid, increment); SendInv(e'.send, [], out + o.frames, grants, reqs)
  {
    assert e.send.pending + [] == [] + e.send.pending;
    DrainKeeps(e.send.(pending := []), e.send.pending, out, grants, reqs);
  }

  /** A WINDOW_UPDATE that grants nothing: refused, or for a stream that is gone. */
  lemma NoGrantKeeps(e: Engine, sid: u32, increment: u32, out: seq<H2Frame>, grants: seq<Grant>, reqs: map<u32, Opened>)
    requires ValidEngine(e) && SendInv(e.send, [], out, grants, reqs)
    requires GrantsOf(e, WindowUpdate(sid, increment)) == []
    ensures var (e', o) := HandleWindowUpdate(e, sid, increment); SendInv(e'.send, [], out + o.frames, grants, reqs)
  {
    if sid != 0 && increment != 0 && sid !in e.send.conn.streams {
      DrainAllKeeps(e, sid, increment, out, grants, reqs);
    } else {
      RefusedKeeps(e, sid, increment, out, grants, reqs);
    }
  }

  lemma RefusedKeeps(e: Engine, sid: u32, increment: u32, out: seq<H2Frame>, grants: seq<Grant>, reqs: map<u32, Opened>)
    requires ValidEngine(e) && SendInv(e.send, [], out, grants, reqs)
    requires GrantsOf(e, WindowUpdate(sid, increment)) == [] && (sid == 0 || increment == 0 || sid in e.send.conn.streams)
    ensures var (e', o) := HandleWindowUpdate(e, sid, increment); SendInv(e'.send, [], out + o.frames, grants, reqs)
  {
    var code := if increment == 0 then PROTOCOL_ERROR else FLOW_CONTROL_ERROR;
    RefusedIs(e, sid, increment, code);
    if sid == 0 {
      SameTableQuiet(e.send, e.send.conn, out, [GoAwayFor(code)], grants, reqs);
    } else {
      RstKeeps(e.send, sid, code, out, grants, reqs);
    }
  }

  lemma RefusedIs(e: Engine, sid: u32, increment: u32, code: u32)
    requires ValidEngine(e) && code == if increment == 0 then PROTOCOL_ERROR else FLOW_CONTROL_ERROR
    requires GrantsOf(e, WindowUpdate(sid, increment)) == [] && (sid == 0 || increment == 0 || sid in e.send.conn.streams)
    ensures var (e', o) := HandleWindowUpdate(e, sid, increment);
            && e'.send == (if sid == 0 then e.send else e.send.(conn := ResetStream(e.send.conn, sid)))
            && o.frames == [if sid == 0 then GoAwayFor(code) else RstStream(sid, code)]
  {
  }

  /** A grant, and the drain that follows it. */
  lemma GrantKeeps(e: Engine, sid: u32, increment: u32, out: seq<H2Frame>, grants: seq<Grant>, reqs: map<u32, Opened>)
    requires ValidEngine(e) && SendInv(e.send, [], out, grants, reqs)
    requires GrantsOf(e, WindowUpdate(sid, increment)) != []
    ensures var (e', o) := HandleWindowUpdate(e, sid, increment);
            SendInv(e'.send, [], out + o.frames, grants + [Grant(sid, increment)], reqs)
  {
    var c, g := e.send.conn, Grant(sid, increment);
    var c' := if sid == 0 then UpdateConnSend(c, increment).value
              else WithStream(c, sid, UpdateSend(c.streams[sid], increment).value);
    GrantStep(e.send, c', g, out, grants, reqs);
    DrainAllKeeps(e.WithConn(c'), sid, increment, out, grants + [g], reqs);
  }

  lemma WindowUpdateKeeps(e: Engine, sid: u32, increment: u32, out: seq<H2Frame>, grants: seq<Grant>,
                          reqs: map<u32, Opened>)
    requires ValidEngine(e) && SendInv(e.send, [], out, grants, reqs)
    ensures var (e', o) := HandleWindowUpdate(e, sid, increment);
            SendInv(e'.send, [], out + o.frames, grants + GrantsOf(e, WindowUpdate(sid, increment)), reqs)
  {
    if GrantsOf(e, WindowUpdate(sid, increment)) == [] {
      NoGrantKeeps(e, sid, increment, out, grants, reqs);
      assert grants + [] == grants;
    } else {
      GrantKeeps(e, sid, increment, out, grants, reqs);
    }
  }

  lemma RstStreamKeeps(e: Engine, sid: u32, out: seq<H2Frame>, grants: seq<Grant>, reqs: map<u32, Opened>)
    requires SendInv(e.send, [], out, grants, reqs)
    ensures SendInv(e.send.(conn := Cleanup(ResetStream(e.send.conn, sid))), [], out + [], grants, reqs)
  {
    QuietStep(e.send, Cleanup(ResetStream(e.send.conn, sid)), out, [], grants, reqs);
  }

  /** Streams that received bytes, an END_STREAM or a clean-up have not moved on the send side. */
  predicate RecvOnly(s: SendState, c: Conn) {
    && c.sendWindow == s.conn.sendWindow
    && c.remote == s.conn.remote && c.local == s.conn.local && c.pendingSettings == s.conn.pendingSettings
    && QuietTable(s.conn.streams, c.streams, [])
  }

  lemma RecvOnlyUpdate(s: SendState, c: Conn, sid: u32, window: nat)
    requires RecvOnly(s, c) && sid in c.streams && window <= I32_MAX
    ensures RecvOnly(s, WithStream(c, sid, c.streams[sid].(recvWindow := window)))
  {
  }

  lemma CreditStreamQuiet(e: Engine, sid: u32, len: nat, initial: u32, s: SendState)
    requires ValidEngine(e) && RecvOnly(s, e.send.conn)
    ensures var (e', fs) := CreditStream(e, sid, len, initial);
            && RecvOnly(s, e'.send.conn) && Control(fs) && e'.send.pending == e.send.pending
  {
    var c, increment := e.send.conn, OnDataReceived(e.policy, e.accumulated, sid, len, initial).1;
    if increment.Some? && sid in c.streams && UpdateRecv(c.streams[sid], increment.value).Some? {
      RecvOnlyUpdate(s, c, sid, c.streams[sid].recvWindow + increment.value);
    }
  }

  lemma ReturnCreditQuiet(e: Engine, sid: u32, len: nat, initial: u32, s: SendState)
    requires ValidEngine(e) && RecvOnly(s, e.send.conn)
    ensures var (e', fs) := ReturnCredit(e, sid, len, initial);
            && RecvOnly(s, e'.send.conn) && Control(fs) && e'.send.pending == e.send.pending
  {
    if len != 0 {
      CreditStreamQuiet(CreditConn(e, len).0, sid, len, initial, s);
    }
  }

  lemma AcceptDataQuiet(e: Engine, c: Conn, sid: u32, data: bytes, endStream: bool, len: nat)
    requires ValidEngine(e) && TableInRange(e.send.conn.streams)
    requires ConsumeConnRecv(e.send.conn, len) == Some(c)
    requires sid in c.streams ==> ConsumeRecv(c.streams[sid], len).Some?
    ensures var (e', o) := AcceptData(e, c, sid, data, endStream, len);
            RecvOnly(e.send, e'.send.conn) && Control(o.frames) && e'.send.pending == e.send.pending
  {
    var c1 := if sid in c.streams
              then var s := ConsumeRecv(c.streams[sid], len).value;
                   WithStream(c, sid, if endStream then RecvEndStream(s) else s)
              else c;
    var initial := if sid in c.streams then c.streams[sid].initialWindow else DEFAULT_INITIAL_WINDOW;
    assert RecvOnly(e.send, c1);
    ReturnCreditQuiet(e.WithConn(c1), sid, len, initial, e.send);
  }

  lemma QuietStepEmits(s: SendState, c: Conn, out: seq<H2Frame>, fs: seq<H2Frame>, grants: seq<Grant>,
                       reqs: map<u32, Opened>)
    requires SendInv(s, [], out, grants, reqs) && Control(fs) && RecvOnly(s, c)
    ensures SendInv(s.(conn := c), [], out + fs, grants, reqs)
  {
    forall sid | sid in c.streams
      ensures sid in s.conn.streams && QuietChange(s.conn.streams[sid], c.streams[sid], sid, fs)
    {
      assert QuietChange(s.conn.streams[sid], c.streams[sid], sid, []);
    }
    QuietStep(s, c, out, fs, grants, reqs);
  }

  lemma DataKeeps(e: Engine, sid: u32, data: bytes, endStream: bool, padding: Option<byte>, out: seq<H2Frame>,
                  grants: seq<Grant>, reqs: map<u32, Opened>)
    requires ValidEngine(e) && SendInv(e.send, [], out, grants, reqs)
    ensures var (e', o) := HandleData(e, sid, data, endStream, padding);
            SendInv(e'.send, [], out + o.frames, grants, reqs)
  {
    var len := FlowLength(data, padding);
    match ConsumeConnRecv(e.send.conn, len)
    case None => SameTableQuiet(e.send, e.send.conn, out, [GoAwayFor(FLOW_CONTROL_ERROR)], grants, reqs);
    case Some(c) =>
      SameTableQuiet(e.send, c, out, [], grants, reqs);
      assert out + [] == out;
      if sid in c.streams && !c.streams[sid].state.CanReceive() {
        RstKeeps(e.send.(conn := c), sid, STREAM_CLOSED, out, grants, reqs);
      } else if sid in c.streams && ConsumeRecv(c.streams[sid], len).None? {
        RstKeeps(e.send.(conn := c), sid, FLOW_CONTROL_ERROR, out, grants, reqs);
      } else {
        AcceptDataQuiet(e, c, sid, data, endStream, len);
        var (e', o) := AcceptData(e, c, sid, data, endStream, len);
        QuietStepEmits(e.send, e'.send.conn, out, o.frames, grants, reqs);
      }
  }

  lemma CompleteHeadersQuiet(e: Engine, sid: u32, endStream: bool, decoded: Option<HeaderList>)
    requires TableInRange(e.send.conn.streams)
    ensures var (e', o) := CompleteHeaders(e, sid, endStream, decoded);
            RecvOnly(e.send, e'.send.conn) && Control(o.frames) && e'.send.pending == e.send.pending
  {
  }

  lemma HeaderFrameQuiet(e: Engine, f: H2Frame, decoded: Option<HeaderList>)
    requires TableInRange(e.send.conn.streams) && (f.Headers? || f.Continuation?)
    ensures var (e', o) := HandleHeaderFrame(e, f, decoded);
            RecvOnly(e.send, e'.send.conn) && Control(o.frames) && e'.send.pending == e.send.pending
  {
    var (a, r) := Push(e.assembler, f);
    if r.Complete? {
      CompleteHeadersQuiet(e.(assembler := a), r.streamId, r.endStream, decoded);
    }
  }

  lemma HeaderFrameKeeps(e: Engine, f: H2Frame, decoded: Option<HeaderList>, out: seq<H2Frame>, grants: seq<Grant>,
                         reqs: map<u32, Opened>)
    requires SendInv(e.send, [], out, grants, reqs) && (f.Headers? || f.Continuation?)
    ensures var (e', o) := HandleHeaderFrame(e, f, decoded); SendInv(e'.send, [], out + o.frames, grants, reqs)
  {
    HeaderFrameQuiet(e, f, decoded);
    var (e', o) := HandleHeaderFrame(e, f, decoded);
    QuietStepEmits(e.send, e'.send.conn, out, o.frames, grants, reqs);
  }

  /** SETTINGS, accepted or refused half-way, moves no stream's balance. */
  lemma SettingsQuiet(c: Conn, ps: seq<SettingsParameter>, c': Conn, ok: bool, fs: seq<H2Frame>)
    requires SettingsOk(c) && TableInRange(c.streams) && SettingsApplied(c, ps, c', ok)
    ensures SettingsOk(c') && c'.sendWindow == c.sendWindow && QuietTable(c.streams, c'.streams, fs)
  {
    ParamsKeepValid(c.remote, ps);
    var (remote, all) := ApplyParams(c.remote, ps);
    if all {
      var done: set<u32> :| VisitEnds(c, remote, done, c', ok);
      forall sid | sid in c'.streams
        ensures sid in c.streams && QuietChange(c.streams[sid], c'.streams[sid], sid, fs)
      {
        StreamStepsInRange(c.streams[sid], 0, 0, remote.initialWindowSize);
      }
    }
  }

  lemma SettingsKeeps(e: Engine, ps: seq<SettingsParameter>, c: Conn, ok: bool, fs: seq<H2Frame>, out: seq<H2Frame>,
                      grants: seq<Grant>, reqs: map<u32, Opened>)
    requires SendInv(e.send, [], out, grants, reqs) && Control(fs)
    requires SettingsApplied(e.send.conn, ps, c, ok)
    ensures SendInv(e.send.(conn := c), [], out + fs, grants, reqs)
  {
    SettingsQuiet(e.send.conn, ps, c, ok, fs);
    QuietStep(e.send, c, out, fs, grants, reqs);
  }
}
