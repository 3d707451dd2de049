/** The send-side invariant is kept by every step of the engine. */
module SendRuns {
  import opened Wire
  import opened Frames
  import opened Codec
  import opened HeaderBlocks
  import opened Streams
  import opened Connection
  import opened Sender
  import opened Policy
  import opened Engine
  import opened Runs

  /** What `build_data` does to the connection: the same `n` bytes on both windows, nothing else. */
  lemma BuildDataConn(s: SendState, sid: u32, data: bytes, fin: bool)
    requires s.conn.remote.maxFrameSize > 0 && data != []
    ensures var c, n := BuildData(s, sid, data, fin).0.conn, Allowed(s.conn, sid, data);
            && c == s.conn.(sendWindow := c.sendWindow, streams := c.streams)
            && c.sendWindow == s.conn.sendWindow - n
            && c.streams.Keys == s.conn.streams.Keys
            && (forall k :: k in c.streams && k != sid ==> c.streams[k] == s.conn.streams[k])
            && (sid in c.streams ==>
                  var t := ConsumeSend(s.conn.streams[sid], n);
                  && n <= SendAvailable(s.conn.streams[sid])
                  && c.streams[sid] == if fin && n == |data| then SendEndStream(t) else t)
            && (sid !in c.streams ==> n == 0)
  {
  }

  /** Trying one buffered body keeps the invariant. */
  lemma SendOne(s: SendState, p: PendingBody, rest: seq<PendingBody>, out: seq<H2Frame>, grants: seq<Grant>,
                reqs: map<u32, Opened>)
    requires SendInv(s, [p] + rest, out, grants, reqs)
    ensures p.endStream
    ensures var (t, fs) := BuildData(s, p.streamId, p.data, true);
            SendInv(t, rest, out + fs, grants, reqs)
  {
    var (t, fs) := BuildData(s, p.streamId, p.data, true);
    SendOneConn(s, p, rest, out, grants, reqs);
    forall sid | sid in reqs
      ensures BodyOk(t.pending + rest, out + fs, reqs[sid], sid)
    {
      SendOneBody(s, p, rest, out, grants, reqs, sid);
    }
    forall sid | sid in t.conn.streams
      ensures sid in reqs && StreamOk(t.conn.streams[sid], sid, t.pending + rest, out + fs, grants)
    {
      SendOneStream(s, p, rest, out, grants, reqs, sid);
    }
  }

  lemma SendOneConn(s: SendState, p: PendingBody, rest: seq<PendingBody>, out: seq<H2Frame>, grants: seq<Grant>,
                    reqs: map<u32, Opened>)
    requires ConnOk(s.conn, out, grants) && PendingOk(s.pending + ([p] + rest), reqs) && OutKnown(out, reqs)
    ensures p.endStream
    ensures var (t, fs) := BuildData(s, p.streamId, p.data, true);
            && ConnOk(t.conn, out + fs, grants) && PendingOk(t.pending + rest, reqs) && OutKnown(out + fs, reqs)
            && t.conn.streams.Keys == s.conn.streams.Keys
  {
    PendingAfter(s, p, rest, reqs);
    BuildDataIsGreedy(s, p.streamId, p.data, true);
    BuildDataConn(s, p.streamId, p.data, true);
    PayloadsAppend(out, BuildData(s, p.streamId, p.data, true).1);
  }

  lemma SendOneBody(s: SendState, p: PendingBody, rest: seq<PendingBody>, out: seq<H2Frame>, grants: seq<Grant>,
                    reqs: map<u32, Opened>, sid: u32)
    requires SendInv(s, [p] + rest, out, grants, reqs) && sid in reqs
    ensures var (t, fs) := BuildData(s, p.streamId, p.data, true);
            BodyOk(t.pending + rest, out + fs, reqs[sid], sid)
  {
    var pend := s.pending + ([p] + rest);
    PendingAfter(s, p, rest, reqs);
    var (t, fs) := BuildData(s, p.streamId, p.data, true);
    BuildDataIsGreedy(s, p.streamId, p.data, true);
    if sid == p.streamId {
      ExtendBody(pend, t.pending + rest, out, fs, reqs[sid], sid, p.data, Allowed(s.conn, p.streamId, p.data));
    } else {
      KeepBody(pend, t.pending + rest, out, fs, reqs[sid], sid);
    }
  }

  lemma SendOneStream(s: SendState, p: PendingBody, rest: seq<PendingBody>, out: seq<H2Frame>, grants: seq<Grant>,
                      reqs: map<u32, Opened>, sid: u32)
    requires SendInv(s, [p] + rest, out, grants, reqs) && sid in s.conn.streams
    ensures var (t, fs) := BuildData(s, p.streamId, p.data, true);
            sid in t.conn.streams && StreamOk(t.conn.streams[sid], sid, t.pending + rest, out + fs, grants)
  {
    var pend := s.pending + ([p] + rest);
    PendingAfter(s, p, rest, reqs);
    var (t, fs) := BuildData(s, p.streamId, p.data, true);
    var n := Allowed(s.conn, p.streamId, p.data);
    BuildDataIsGreedy(s, p.streamId, p.data, true);
    BuildDataConn(s, p.streamId, p.data, true);
    if sid == p.streamId {
      ExtendBody(pend, t.pending + rest, out, fs, reqs[sid], sid, p.data, n);
      SpendStream(s.conn.streams[sid], pend, t.pending + rest, out, fs, grants, sid, p.data, n);
    } else {
      KeepStream(s.conn.streams[sid], pend, t.pending + rest, out, fs, grants, sid);
    }
  }

  /** A drain keeps the invariant. */
  lemma {:induction false} DrainKeeps(s: SendState, todo: seq<PendingBody>, out: seq<H2Frame>, grants: seq<Grant>,
                                      reqs: map<u32, Opened>)
    requires SendInv(s, todo, out, grants, reqs)
    ensures var (t, fs) := Drain(s, todo); SendInv(t, [], out + fs, grants, reqs)
    decreases |todo|
  {
    if todo == [] {
      assert out + [] == out;
    } else {
      var p, rest := todo[0], todo[1..];
      assert todo == [p] + rest;
      SendOne(s, p, rest, out, grants, reqs);
      var (t, fs) := BuildData(s, p.streamId, p.data, true);
      DrainKeeps(t, rest, out + fs, grants, reqs);
      Assoc(out, fs, Drain(t, rest).1);
    }
  }

  // ---- Steps that send no request frames --------------------------------------------------------

  predicate Control(fs: seq<H2Frame>) {
    forall i :: 0 <= i < |fs| ==> !fs[i].Data? && !fs[i].Headers? && !fs[i].Continuation?
  }

  /** A stream may change so while no credit moves: what it can still send stays, or the engine is
      resetting it in this very step. */
  predicate QuietChange(was: Stream, now: Stream, sid: u32, fs: seq<H2Frame>) {
    && InRange(now) && Balance(now) == Balance(was)
    && (if now.state.Closed? && WasReset(fs, sid) then true
        else now.state.CanSend() == was.state.CanSend() && (was.state.Closed? ==> now.state.Closed?))
  }

  predicate SettingsOk(c: Conn) {
    && ValidSettings(c.remote) && ValidSettings(c.local)
    && forall i :: 0 <= i < |c.pendingSettings| ==> ValidSettings(c.pendingSettings[i])
  }

  lemma QuietStream(s: Stream, t: Stream, pend: seq<PendingBody>, out: seq<H2Frame>, fs: seq<H2Frame>,
                    grants: seq<Grant>, sid: u32)
    requires StreamOk(s, sid, pend, out, grants) && Control(fs) && QuietChange(s, t, sid, fs)
    ensures StreamOk(t, sid, pend, out + fs, grants)
  {
    OtherFrames(out, fs, sid);
    if WasReset(fs, sid) {
      var i :| 0 <= i < |fs| && fs[i].RstStream? && fs[i].streamId == sid;
      assert (out + fs)[|out| + i] == fs[i];
    }
  }

  /** Frames other than HEADERS, CONTINUATION and DATA leave every request's record alone. */
  lemma ControlFrames(pend: seq<PendingBody>, out: seq<H2Frame>, fs: seq<H2Frame>, reqs: map<u32, Opened>)
    requires BodiesOk(pend, out, reqs) && OutKnown(out, reqs) && Control(fs)
    ensures BodiesOk(pend, out + fs, reqs) && OutKnown(out + fs, reqs) && Payloads(out + fs) == Payloads(out)
  {
    PayloadsAppend(out, fs);
    PayloadsNone(fs);
    forall sid | sid in reqs
      ensures BodyOk(pend, out + fs, reqs[sid], sid)
    {
      KeepBody(pend, pend, out, fs, reqs[sid], sid);
    }
  }

  /** A step that moves no send credit and emits no request frame keeps the invariant. */
  lemma QuietStep(s: SendState, c: Conn, out: seq<H2Frame>, fs: seq<H2Frame>, grants: seq<Grant>,
                  reqs: map<u32, Opened>)
    requires SendInv(s, [], out, grants, reqs) && Control(fs)
    requires c.sendWindow == s.conn.sendWindow && SettingsOk(c)
    requires forall sid :: sid in c.streams ==>
               sid in s.conn.streams && QuietChange(s.conn.streams[sid], c.streams[sid], sid, fs)
    ensures SendInv(s.(conn := c), [], out + fs, grants, reqs)
  {
    ControlFrames(s.pending + [], out, fs, reqs);
    forall sid | sid in c.streams
      ensures sid in reqs && StreamOk(c.streams[sid], sid, s.pending + [], out + fs, grants)
    {
      QuietStream(s.conn.streams[sid], c.streams[sid], s.pending + [], out, fs, grants, sid);
    }
  }

  /** A credit grant accepted by the connection or by a stream keeps the invariant. */
  lemma GrantStep(s: SendState, c: Conn, g: Grant, out: seq<H2Frame>, grants: seq<Grant>, reqs: map<u32, Opened>)
    requires SendInv(s, [], out, grants, reqs)
    requires if g.streamId == 0 then UpdateConnSend(s.conn, g.increment) == Some(c)
             else g.streamId in s.conn.streams && UpdateSend(s.conn.streams[g.streamId], g.increment).Some?
                  && c == WithStream(s.conn, g.streamId, UpdateSend(s.conn.streams[g.streamId], g.increment).value)
    ensures SendInv(s.(conn := c), [], out, grants + [g], reqs)
  {
    GrantedPush(grants, g, 0);
    forall sid | sid in c.streams
      ensures sid in reqs && StreamOk(c.streams[sid], sid, s.pending + [], out, grants + [g])
    {
      GrantedPush(grants, g, sid);
      StreamStepsInRange(s.conn.streams[sid], 0, g.increment, 0);
    }
  }

  // ---- A request --------------------------------------------------------------------------------

  lemma FreshRun(sid: u32, head: seq<H2Frame>, body: bytes)
    requires HeadOk(Opened(head, body), sid)
    ensures RequestRun(head, Opened(head, body), sid, body)
  {
    assert head[..|head|] == head && head[|head|..] == [];
  }

  /** The new stream, once its header block is out and before any of its body is. */
  lemma OpenBody(out: seq<H2Frame>, sid: u32, head: seq<H2Frame>, body: bytes, reqs: map<u32, Opened>)
    requires OutKnown(out, reqs) && sid !in reqs && HeadOk(Opened(head, body), sid)
    ensures OnStream(out + head, sid) == head && SentOn(out + head, sid) == []
  {
    OnStreamAppend(out, head, sid);
    OnStreamNone(out, sid);
    OnStreamAll(head, sid);
    PayloadsNone(head);
  }

  lemma SplitHeadOk(sid: u32, block: bytes, priority: Option<PrioritySpec>, maxFrame: nat, body: bytes)
    requires maxFrame >= 5
    ensures HeadOk(Opened(SplitBlock(sid, block, body == [], priority, maxFrame), body), sid)
  {
    SplitIsLegal(sid, block, body == [], priority, maxFrame);
  }

  function Waiting(sid: u32, body: bytes): seq<PendingBody> {
    if body == [] then [] else [PendingBody(sid, body, true)]
  }

  lemma WaitingFor(pend: seq<PendingBody>, sid: u32, body: bytes, k: u32)
    requires Absent(pend, sid)
    ensures PendingFor(pend + Waiting(sid, body), k) == if k == sid then body else PendingFor(pend, k)
  {
    var w := Waiting(sid, body);
    PendingForAbsent(pend, sid);
    PendingForAppend(pend, w, k);
    assert w != [] ==> w[1..] == [];
  }

  lemma WaitingOk(pend: seq<PendingBody>, sid: u32, body: bytes, reqs: map<u32, Opened>, all: map<u32, Opened>)
    requires PendingOk(pend, reqs) && sid !in reqs && all.Keys == reqs.Keys + {sid}
    ensures PendingOk(pend + Waiting(sid, body), all) && Absent(pend, sid)
  {
  }

  /** The connection with the new stream, its local side ended when there is no body. */
  function OpenFor(c: Conn, body: bytes): Conn {
    if body == [] then EndLocal(OpenStream(c), c.nextStreamId) else OpenStream(c)
  }

  lemma NewStreamOk(c: Conn, out: seq<H2Frame>, head: seq<H2Frame>, body: bytes, pend: seq<PendingBody>,
                    grants: seq<Grant>, reqs: map<u32, Opened>)
    requires SettingsOk(c) && OutKnown(out, reqs) && GrantsKnown(grants, reqs)
    requires c.nextStreamId !in reqs && c.nextStreamId != 0 && HeadOk(Opened(head, body), c.nextStreamId)
    requires PendingFor(pend, c.nextStreamId) == body
    ensures StreamOk(OpenFor(c, body).streams[c.nextStreamId], c.nextStreamId, pend, out + head, grants)
  {
    OpenBody(out, c.nextStreamId, head, body, reqs);
    GrantedNone(grants, c.nextStreamId);
  }

  lemma RequestBodies(pend: seq<PendingBody>, out: seq<H2Frame>, sid: u32, head: seq<H2Frame>, body: bytes,
                      reqs: map<u32, Opened>, all: map<u32, Opened>)
    requires BodiesOk(pend, out, reqs) && OutKnown(out, reqs) && Absent(pend, sid)
    requires sid !in reqs && HeadOk(Opened(head, body), sid) && all == reqs[sid := Opened(head, body)]
    ensures BodiesOk(pend + Waiting(sid, body), out + head, all) && OutKnown(out + head, all)
  {
    forall k | k in all
      ensures BodyOk(pend + Waiting(sid, body), out + head, all[k], k)
    {
      WaitingFor(pend, sid, body, k);
      if k == sid {
        OpenBody(out, sid, head, body, reqs);
        FreshRun(sid, head, body);
      } else {
        KeepBody(pend, pend + Waiting(sid, body), out, head, reqs[k], k);
      }
    }
  }

  lemma RequestStreams(c: Conn, pend: seq<PendingBody>, out: seq<H2Frame>, head: seq<H2Frame>, body: bytes,
                       grants: seq<Grant>, reqs: map<u32, Opened>, all: map<u32, Opened>)
    requires StreamsOk(c.streams, pend, out, grants, reqs)
    requires SettingsOk(c) && OutKnown(out, reqs) && GrantsKnown(grants, reqs) && Absent(pend, c.nextStreamId)
    requires c.nextStreamId !in reqs && c.nextStreamId != 0 && HeadOk(Opened(head, body), c.nextStreamId)
    requires all.Keys == reqs.Keys + {c.nextStreamId}
    ensures StreamsOk(OpenFor(c, body).streams, pend + Waiting(c.nextStreamId, body), out + head, grants, all)
  {
    var sid := c.nextStreamId;
    var pend', streams := pend + Waiting(sid, body), OpenFor(c, body).streams;
    forall k | k in streams
      ensures k in all && StreamOk(streams[k], k, pend', out + head, grants)
    {
      WaitingFor(pend, sid, body, k);
      if k == sid {
        NewStreamOk(c, out, head, body, pend', grants, reqs);
      } else {
        assert streams[k] == c.streams[k];
        KeepStream(c.streams[k], pend, pend', out, head, grants, k);
      }
    }
  }

  /** A request's header block goes out on a fresh stream, its body waiting to be tried. */
  lemma RequestHead(s: SendState, out: seq<H2Frame>, head: seq<H2Frame>, body: bytes, grants: seq<Grant>,
                    reqs: map<u32, Opened>, all: map<u32, Opened>)
    requires SendInv(s, [], out, grants, reqs)
    requires var sid := s.conn.nextStreamId;
             && sid !in reqs && sid != 0 && HeadOk(Opened(head, body), sid)
             && all == reqs[sid := Opened(head, body)]
    ensures SendInv(s.(conn := OpenFor(s.conn, body)), Waiting(s.conn.nextStreamId, body), out + head, grants, all)
  {
    var sid := s.conn.nextStreamId;
    assert s.pending + [] == s.pending;
    WaitingOk(s.pending, sid, body, reqs, all);
    PayloadsAppend(out, head);
    PayloadsNone(head);
    RequestBodies(s.pending, out, sid, head, body, reqs, all);
    RequestStreams(s.conn, s.pending, out, head, body, grants, reqs, all);
  }
}
