/** The laws of the engine in the terms of its users, for every reachable state. */
module EngineTheorems {
  import opened Wire
  import opened Frames
  import opened Codec
  import opened HeaderBlocks
  import opened Streams
  import opened Connection
  import opened Sender
  import opened Policy
  import opened Engine
  import opened Runs
  import opened SendRuns
  import opened EngineRuns
  import opened EngineLaws

  ghost predicate Reaches(ws: seq<World>, ls: seq<Label>, profile: seq<SettingsParameter>, windowUpdate: u32,
                          blockLimit: nat, policy: FlowPolicy, w: World) {
    Run(ws, ls, profile, windowUpdate, blockLimit, policy) && w == ws[|ls|]
  }

  /** Some run from some valid profile ends in this state. */
  ghost predicate Reachable(w: World) {
    exists ws: seq<World>, ls: seq<Label>, profile: seq<SettingsParameter>, windowUpdate: u32, blockLimit: nat,
           policy: FlowPolicy :: Reaches(ws, ls, profile, windowUpdate, blockLimit, policy, w)
  }

  lemma ReachableInv(w: World)
    requires Reachable(w)
    ensures Inv(w)
  {
    var ws, ls, profile, windowUpdate, blockLimit, policy :|
      Reaches(ws, ls, profile, windowUpdate, blockLimit, policy, w);
    RunInv(ws, ls, profile, windowUpdate, blockLimit, policy, |ls|);
  }

  // ---- Bodies -----------------------------------------------------------------------------------

  /** Body conservation: the DATA payloads sent on a stream, in order, followed by what is still
      buffered for it, are the request's body. */
  lemma BodyConserved(w: World, sid: u32)
    requires Reachable(w) && sid in w.reqs
    ensures SentOn(w.out, sid) + PendingFor(w.engine.send.pending, sid) == w.reqs[sid].body
  {
    ReachableInv(w);
    assert w.engine.send.pending + [] == w.engine.send.pending;
    assert BodyOk(w.engine.send.pending, w.out, w.reqs[sid], sid);
    RunPayloads(OnStream(w.out, sid), w.reqs[sid], sid, PendingFor(w.engine.send.pending, sid));
  }

  lemma RunPayloads(fs: seq<H2Frame>, o: Opened, sid: u32, left: bytes)
    requires RequestRun(fs, o, sid, left)
    ensures Payloads(fs) + left == o.body
  {
    PayloadsAfterHead(fs, o.head);
  }

  lemma PayloadsAfterHead(fs: seq<H2Frame>, head: seq<H2Frame>)
    requires |head| <= |fs| && fs[..|head|] == head
    requires forall i :: 0 <= i < |head| ==> !head[i].Data?
    ensures Payloads(fs) == Payloads(fs[|head|..])
  {
    assert fs == head + fs[|head|..];
    PayloadsAppend(head, fs[|head|..]);
    PayloadsNone(head);
  }

  predicate EndsStream(f: H2Frame) {
    (f.Headers? || f.Data?) && f.endStream
  }

  /** END_STREAM exactly once: none while bytes are buffered, one when none is, and after it, of HEADERS,
      CONTINUATION and DATA, nothing but the CONTINUATIONs of the header block that carried it. */
  lemma EndStreamOnce(w: World, sid: u32)
    requires Reachable(w) && sid in w.reqs
    ensures var fs := OnStream(w.out, sid);
            && (forall i :: 0 <= i < |fs| && EndsStream(fs[i]) ==>
                  && PendingFor(w.engine.send.pending, sid) == []
                  && (forall j :: i < j < |fs| ==> fs[j].Continuation?))
            && (PendingFor(w.engine.send.pending, sid) == [] ==> exists i :: 0 <= i < |fs| && EndsStream(fs[i]))
  {
    ReachableInv(w);
    var o := w.reqs[sid];
    assert w.engine.send.pending + [] == w.engine.send.pending;
    assert BodyOk(w.engine.send.pending, w.out, o, sid);
    RunEndsOnce(OnStream(w.out, sid), o, sid, PendingFor(w.engine.send.pending, sid));
  }

  lemma RunEndsOnce(fs: seq<H2Frame>, o: Opened, sid: u32, left: bytes)
    requires RequestRun(fs, o, sid, left)
    ensures forall i :: 0 <= i < |fs| && EndsStream(fs[i]) ==>
              left == [] && (forall j :: i < j < |fs| ==> fs[j].Continuation?)
    ensures left == [] ==> exists i :: 0 <= i < |fs| && EndsStream(fs[i])
  {
    var h := |o.head|;
    var run := fs[h..];
    assert forall i :: 0 <= i < h ==> fs[i] == o.head[i];
    assert forall i :: h <= i < |fs| ==> fs[i] == run[i - h];
    if o.body == [] {
      PayloadsEmpty(run, sid);
      assert EndsStream(fs[0]);
    } else if left == [] {
      assert EndsStream(fs[|fs| - 1]);
    }
  }

  lemma PayloadsEmpty(run: seq<H2Frame>, sid: u32)
    requires DataRun(run, sid, false) && Payloads(run) == []
    ensures run == []
  {
  }

  // ---- Credit -----------------------------------------------------------------------------------

  /** The send-credit ledger, for the connection and for every stream in the table. */
  lemma SendLedger(w: World)
    requires Reachable(w)
    ensures w.engine.send.conn.sendWindow == DEFAULT_INITIAL_WINDOW + Granted(w.grants, 0) - |Payloads(w.out)|
    ensures forall sid :: sid in w.engine.send.conn.streams ==>
              var s := w.engine.send.conn.streams[sid];
              s.sendWindow == s.initialWindow + Granted(w.grants, sid) - |SentOn(w.out, sid)|
  {
    ReachableInv(w);
  }

  /** No more than was granted ever goes out on the connection. */
  lemma NeverOverspends(w: World)
    requires Reachable(w)
    ensures |Payloads(w.out)| <= DEFAULT_INITIAL_WINDOW + Granted(w.grants, 0)
  {
    ReachableInv(w);
  }

  /** After an accepted SETTINGS frame every stream's window is the peer's current initial size plus
      its own grants less its own bytes: earlier SETTINGS leave no trace. */
  lemma SettingsHistoryForgotten(w: World, ps: seq<SettingsParameter>, w': World)
    requires Reachable(w)
    requires Next(w, Receive(Settings(false, ps), None, Output([Settings(true, [])], [SettingsAcked])), w')
    ensures forall sid :: sid in w'.engine.send.conn.streams ==>
              var c := w'.engine.send.conn;
              c.streams[sid].sendWindow
              == c.remote.initialWindowSize + Granted(w'.grants, sid) - |SentOn(w'.out, sid)|
  {
    ReachableInv(w);
    var e, e' := w.engine, w'.engine;
    var o := Output([Settings(true, [])], [SettingsAcked]);
    NextKeeps(w, Receive(Settings(false, ps), None, o), w');
    var c', ok :| SettingsApplied(e.send.conn, ps, c', ok) && (e', o) == SettingsOutcome(e, c', ok);
    SettingsVerdict(e.send.conn, ps, c', ok);
  }

  /** Every window of every reachable state is in the range of the code's i32 fields, and the ones
      that may not go negative do not. */
  lemma WindowsInRange(w: World)
    requires Reachable(w)
    ensures var c := w.engine.send.conn;
            && 0 <= c.sendWindow <= I32_MAX && 0 <= c.recvWindow <= I32_MAX
            && forall sid :: sid in c.streams ==>
                 && -I32_MAX <= c.streams[sid].sendWindow <= I32_MAX
                 && 0 <= c.streams[sid].recvWindow <= I32_MAX
  {
    ReachableInv(w);
  }

  /** The receive-credit ledger; every connection increment announced is legal; and as long as no
      DATA frame was dropped, less than the threshold is ever missing from the window. */
  lemma ReceiveLedger(w: World)
    requires Reachable(w)
    ensures var e := w.engine;
            && e.send.conn.recvWindow + Held(e.accumulated, 0) + w.dropped == e.initialRecvWindow
            && (forall i :: 0 <= i < |w.out| && w.out[i].WindowUpdate? && w.out[i].streamId == 0 ==>
                  1 <= w.out[i].increment <= I32_MAX)
            && (w.dropped == 0 && e.policy.Threshold? ==>
                  e.send.conn.recvWindow > e.initialRecvWindow - Max(1, e.policy.limit(e.initialRecvWindow)))
  {
    ReachableInv(w);
  }

  // ---- Where the engine falls short -------------------------------------------------------------

  /** `build_data` looks at credit only. It respects the stream's state, sending nothing unless the
      stream may still send, exactly when there is no credit or the state allows it. */
  lemma SendRespectsState(s: SendState, sid: u32, data: bytes, fin: bool)
    requires s.conn.remote.maxFrameSize > 0 && data != []
    ensures var mayDo := sid in s.conn.streams && s.conn.streams[sid].state.CanSend();
            (BuildData(s, sid, data, fin).1 == [] || mayDo) <==> (SendAvailableOn(s.conn, sid) == 0 || mayDo)
  {
    BuildDataIsGreedy(s, sid, data, fin);
    assert Payloads([]) == [];
  }

  /** In a run, the only streams with buffered bytes that may not send are those the engine itself
      has reset: a peer's END_STREAM, RST_STREAM or GOAWAY never leaves one behind. */
  lemma OnlyOwnResetsViolate(w: World, sid: u32)
    requires Reachable(w) && sid in w.engine.send.conn.streams
    requires PendingFor(w.engine.send.pending, sid) != [] && !w.engine.send.conn.streams[sid].state.CanSend()
    ensures WasReset(w.out, sid)
  {
    ReachableInv(w);
    assert w.engine.send.pending + [] == w.engine.send.pending;
  }

  /** And such a stream does send: after a zero WINDOW_UPDATE made the engine reset a stream with a
      buffered body, any accepted increment on it brings a DATA frame for the closed stream. */
  lemma ResetStreamStillSends(e: Engine, sid: u32, data: bytes, k: u32)
    requires ValidEngine(e) && sid != 0 && data != [] && e.send.pending == [PendingBody(sid, data, true)]
    requires sid in e.send.conn.streams && InRange(e.send.conn.streams[sid]) && e.send.conn.sendWindow > 0
    requires 0 < e.send.conn.streams[sid].sendWindow + k <= I32_MAX && k > 0
    ensures var (e1, o1) := HandleWindowUpdate(e, sid, 0);
            && o1.frames == [RstStream(sid, PROTOCOL_ERROR)] && e1.send.conn.streams[sid].state.Closed?
            && ValidEngine(e1)
            && var o2 := HandleWindowUpdate(e1, sid, k).1;
               o2.frames != [] && o2.frames[0].Data? && o2.frames[0].streamId == sid
  {
    var e1 := HandleWindowUpdate(e, sid, 0).0;
    var c1 := e1.send.conn;
    var s := SendState(WithStream(c1, sid, UpdateSend(c1.streams[sid], k).value), []);
    BuildDataIsGreedy(s, sid, data, true);
    assert Payloads([]) == [];
    assert e1.send.pending[1..] == [];
    assert Drain(s, e1.send.pending).1 == BuildData(s, sid, data, true).1 + [];
  }

  /** A WINDOW_UPDATE that is not refused, on whatever stream, leaves nothing sendable behind. */
  lemma UpdateLeavesBlocked(e: Engine, sid: u32, increment: u32)
    requires ValidEngine(e) && HandleWindowUpdate(e, sid, increment).1.events == [WindowUpdated(sid, increment)]
    ensures Blocked(HandleWindowUpdate(e, sid, increment).0.send)
  {
    var c := e.send.conn;
    var c' := if sid == 0 then UpdateConnSend(c, increment).value
              else if sid in c.streams then WithStream(c, sid, UpdateSend(c.streams[sid], increment).value)
              else c;
    DrainLeavesBlocked(SendState(c', []), e.send.pending);
  }

  /** The visit of a SETTINGS frame got as far as this stream: always if the frame is accepted, and in
      the hash map's order if it is refused for overflowing another one. */
  predicate Reached(c: Conn, ps: seq<SettingsParameter>, c': Conn, sid: u32)
    requires sid in c'.streams
  {
    ApplyParams(c.remote, ps).1 && c'.streams[sid].initialWindow == ApplyParams(c.remote, ps).0.initialWindowSize
  }

  /** SETTINGS does not drain, accepted or refused: raising the window of a blocked stream leaves its body
      sendable and unsent, exactly when the connection still has credit and the window is positive:
      the new one if the frame was accepted or its visit got there, else the old one. */
  lemma SettingsMayUnblock(c: Conn, ps: seq<SettingsParameter>, c': Conn, ok: bool, p: PendingBody)
    requires SettingsOk(c) && SettingsApplied(c, ps, c', ok)
    requires p.streamId in c.streams && InRange(c.streams[p.streamId])
    ensures var s, size := c.streams[p.streamId], ApplyParams(c.remote, ps).0.initialWindowSize;
            && p.streamId in c'.streams && (ok ==> Reached(c, ps, c', p.streamId))
            && (Blocked(SendState(c', [p]))
                <==> c.sendWindow <= 0
                     || (if Reached(c, ps, c', p.streamId) then Balance(s) + size <= 0 else s.sendWindow <= 0))
  {
    SettingsVerdict(c, ps, c', ok);
    ParamsKeepValid(c.remote, ps);
    var (remote, all) := ApplyParams(c.remote, ps);
    if all {
      var done: set<u32> :| VisitEnds(c, remote, done, c', ok);
      StreamStepsInRange(c.streams[p.streamId], 0, 0, remote.initialWindowSize);
    }
    assert SendState(c', [p]).pending[0] == p;
  }

  // ---- Stream identifiers -----------------------------------------------------------------------

  /** The id the u32 counter yields for the k-th request, and the 31 bits of it that reach the wire. */
  function NthId(k: nat): u32 {
    (2 * k + 1) % 0x1_0000_0000
  }

  ghost predicate AllDistinct(n: nat, id: nat -> u32) {
    forall i, j :: 0 <= i < j < n ==> id(i) != id(j)
  }

  /** After k requests the next one has that id, so ids are odd and strictly increasing. */
  lemma RequestGetsNthId(w: World)
    requires Reachable(w) && w.opens < 0x8000_0000
    ensures w.engine.send.conn.nextStreamId == NthId(w.opens) == 2 * w.opens + 1
    ensures w.engine.send.conn.nextStreamId !in w.reqs
    ensures forall sid :: sid in w.reqs ==> sid < w.engine.send.conn.nextStreamId
  {
    ReachableInv(w);
    IdsGrow(w.engine.send.conn, w.reqs, w.opens);
  }

  lemma IdsGrow(c: Conn, reqs: map<u32, Opened>, k: nat)
    requires IdsOk(c, reqs, k) && k < 0x8000_0000
    ensures c.nextStreamId == NthId(k) == 2 * k + 1 && c.nextStreamId !in reqs
    ensures forall sid :: sid in reqs ==> sid < c.nextStreamId
  {
    assert 2 * k + 1 < 0x1_0000_0000;
  }

  /** Below the wrap the ids are the odd numbers in order. */
  lemma NthIdBelow(k: nat)
    ensures k < 0x8000_0000 ==> NthId(k) == 2 * k + 1
    ensures k < 0x4000_0000 ==> NthWireId(k) == 2 * k + 1
  {
  }

  /** Ids repeat after exactly 2^31 requests. */
  lemma IdsDistinctIff(n: nat)
    ensures AllDistinct(n, NthId) <==> n <= 0x8000_0000
  {
    if n > 0x8000_0000 {
      assert NthId(0) == NthId(0x8000_0000);
    } else {
      forall i, j | 0 <= i < j < n
        ensures NthId(i) != NthId(j)
      {
        NthIdBelow(i);
        NthIdBelow(j);
      }
    }
  }

  function NthWireId(k: nat): u32 {
    Low31(NthId(k))
  }

  /** On the wire, where the top bit is masked, they repeat after 2^30. */
  lemma WireIdsDistinctIff(n: nat)
    ensures AllDistinct(n, NthWireId) <==> n <= 0x4000_0000
  {
    if n > 0x4000_0000 {
      assert NthWireId(0) == NthWireId(0x4000_0000);
    } else {
      forall i, j | 0 <= i < j < n
        ensures NthWireId(i) != NthWireId(j)
      {
        NthIdBelow(i);
        NthIdBelow(j);
      }
    }
  }
}
