/** Whole runs of the engine: any interleaving of requests and inbound frames, with everything the
    engine has emitted. The send-side laws are invariants of every such run. */
module Runs {
  import opened Wire
  import opened Frames
  import opened Codec
  import opened HeaderBlocks
  import opened Streams
  import opened Connection
  import opened Sender
  import opened Policy
  import opened Engine

  // ---- Reading the emitted frames ---------------------------------------------------------------

  /** The frames that make up a request: its header block and its body. */
  predicate Belongs(f: H2Frame, sid: u32) {
    (f.Data? || f.Headers? || f.Continuation?) && f.streamId == sid
  }

  function OnStream(out: seq<H2Frame>, sid: u32): seq<H2Frame> {
    if out == [] then []
    else OnStream(out[..|out| - 1], sid) + (if Belongs(out[|out| - 1], sid) then [out[|out| - 1]] else [])
  }

  function SentOn(out: seq<H2Frame>, sid: u32): bytes {
    Payloads(OnStream(out, sid))
  }

  predicate WasReset(out: seq<H2Frame>, sid: u32) {
    exists i :: 0 <= i < |out| && out[i].RstStream? && out[i].streamId == sid
  }

  lemma {:induction false} OnStreamAppend(a: seq<H2Frame>, b: seq<H2Frame>, sid: u32)
    ensures OnStream(a + b, sid) == OnStream(a, sid) + OnStream(b, sid)
    decreases |b|
  {
    if b == [] {
      assert a + b == a;
    } else {
      assert (a + b)[..|a + b| - 1] == a + b[..|b| - 1];
      OnStreamAppend(a, b[..|b| - 1], sid);
    }
  }

  lemma {:induction false} OnStreamAll(fs: seq<H2Frame>, sid: u32)
    requires forall i :: 0 <= i < |fs| ==> Belongs(fs[i], sid)
    ensures OnStream(fs, sid) == fs
  {
    if fs != [] {
      OnStreamAll(fs[..|fs| - 1], sid);
    }
  }

  lemma {:induction false} OnStreamNone(fs: seq<H2Frame>, sid: u32)
    requires forall i :: 0 <= i < |fs| ==> !Belongs(fs[i], sid)
    ensures OnStream(fs, sid) == []
  {
    if fs != [] {
      OnStreamNone(fs[..|fs| - 1], sid);
    }
  }

  lemma {:induction false} PayloadsNone(fs: seq<H2Frame>)
    requires forall i :: 0 <= i < |fs| ==> !fs[i].Data?
    ensures Payloads(fs) == []
  {
    if fs != [] {
      PayloadsNone(fs[..|fs| - 1]);
    }
  }

  // ---- Reading the buffered bodies --------------------------------------------------------------

  function PendingFor(pend: seq<PendingBody>, sid: u32): bytes {
    if pend == [] then []
    else (if pend[0].streamId == sid then pend[0].data else []) + PendingFor(pend[1..], sid)
  }

  lemma {:induction false} PendingForAppend(a: seq<PendingBody>, b: seq<PendingBody>, sid: u32)
    ensures PendingFor(a + b, sid) == PendingFor(a, sid) + PendingFor(b, sid)
  {
    if a == [] {
      assert a + b == b;
    } else {
      assert (a + b)[1..] == a[1..] + b;
      PendingForAppend(a[1..], b, sid);
    }
  }

  lemma {:induction false} PendingForAbsent(pend: seq<PendingBody>, sid: u32)
    requires forall i :: 0 <= i < |pend| ==> pend[i].streamId != sid
    ensures PendingFor(pend, sid) == []
  {
    if pend != [] {
      PendingForAbsent(pend[1..], sid);
    }
  }

  // ---- Credit the peer has granted --------------------------------------------------------------

  datatype Grant = Grant(streamId: u32, increment: u32)

  function Granted(grants: seq<Grant>, sid: u32): nat {
    if grants == [] then 0
    else Granted(grants[..|grants| - 1], sid)
         + (if grants[|grants| - 1].streamId == sid then grants[|grants| - 1].increment else 0)
  }

  lemma GrantedPush(grants: seq<Grant>, g: Grant, sid: u32)
    ensures Granted(grants + [g], sid) == Granted(grants, sid) + (if g.streamId == sid then g.increment else 0)
  {
    assert (grants + [g])[..|grants|] == grants;
  }

  lemma {:induction false} GrantedNone(grants: seq<Grant>, sid: u32)
    requires forall i :: 0 <= i < |grants| ==> grants[i].streamId != sid
    ensures Granted(grants, sid) == 0
  {
    if grants != [] {
      GrantedNone(grants[..|grants| - 1], sid);
    }
  }

  // ---- The invariant ----------------------------------------------------------------------------

  /** A request that was given a stream: the frames of its header block, and its body. */
  datatype Opened = Opened(head: seq<H2Frame>, body: bytes)

  /** One HEADERS frame, then CONTINUATIONs; END_STREAM on it exactly when there is no body. */
  predicate HeadOk(o: Opened, sid: u32) {
    && o.head != [] && o.head[0].Headers? && (o.head[0].endStream <==> o.body == [])
    && (forall i :: 0 <= i < |o.head| ==> Belongs(o.head[i], sid) && !o.head[i].Data?)
    && (forall i :: 0 < i < |o.head| ==> o.head[i].Continuation?)
  }

  /** What has gone out on the stream is the header block, then a run of DATA frames whose payloads,
      followed by the bytes still buffered, are the body; END_STREAM closes the run when nothing is
      buffered and not before. */
  predicate RequestRun(fs: seq<H2Frame>, o: Opened, sid: u32, left: bytes) {
    var h := |o.head|;
    && HeadOk(o, sid)
    && h <= |fs| && fs[..h] == o.head
    && DataRun(fs[h..], sid, o.body != [] && left == [])
    && Payloads(fs[h..]) + left == o.body
  }

  predicate BodyOk(pend: seq<PendingBody>, out: seq<H2Frame>, o: Opened, sid: u32) {
    RequestRun(OnStream(out, sid), o, sid, PendingFor(pend, sid))
  }

  predicate PendingOk(pend: seq<PendingBody>, reqs: map<u32, Opened>) {
    && (forall i :: 0 <= i < |pend| ==> pend[i].data != [] && pend[i].endStream && pend[i].streamId in reqs)
    && (forall i, j :: 0 <= i < |pend| && 0 <= j < |pend| && i != j ==> pend[i].streamId != pend[j].streamId)
  }

  /** The stream's credit ledger, and its local side: still sending while bytes are buffered unless
      the engine itself reset it, finished sending otherwise. */
  predicate StreamOk(s: Stream, sid: u32, pend: seq<PendingBody>, out: seq<H2Frame>, grants: seq<Grant>) {
    && InRange(s)
    && Balance(s) == Granted(grants, sid) - |SentOn(out, sid)|
    && (if PendingFor(pend, sid) == [] then !s.state.CanSend()
        else s.state.CanSend() || (s.state.Closed? && WasReset(out, sid)))
  }

  predicate ConnOk(c: Conn, out: seq<H2Frame>, grants: seq<Grant>) {
    && c.sendWindow == DEFAULT_INITIAL_WINDOW + Granted(grants, 0) - |Payloads(out)|
    && 0 <= c.sendWindow <= I32_MAX
    && ValidSettings(c.remote) && ValidSettings(c.local)
    && forall i :: 0 <= i < |c.pendingSettings| ==> ValidSettings(c.pendingSettings[i])
  }

  predicate OutKnown(out: seq<H2Frame>, reqs: map<u32, Opened>) {
    forall i :: 0 <= i < |out| ==>
      (out[i].Data? || out[i].Headers? || out[i].Continuation?) ==> out[i].streamId in reqs
  }

  predicate GrantsKnown(grants: seq<Grant>, reqs: map<u32, Opened>) {
    forall i :: 0 <= i < |grants| ==> grants[i].streamId == 0 || grants[i].streamId in reqs
  }

  predicate BodiesOk(pend: seq<PendingBody>, out: seq<H2Frame>, reqs: map<u32, Opened>) {
    forall sid :: sid in reqs ==> BodyOk(pend, out, reqs[sid], sid)
  }

  predicate StreamsOk(t: Table, pend: seq<PendingBody>, out: seq<H2Frame>, grants: seq<Grant>,
                      reqs: map<u32, Opened>) {
    forall sid :: sid in t ==> sid in reqs && StreamOk(t[sid], sid, pend, out, grants)
  }

  /** The send-side invariant, with `todo` the buffered bodies a drain has taken but not yet tried. */
  predicate SendInv(s: SendState, todo: seq<PendingBody>, out: seq<H2Frame>, grants: seq<Grant>,
                    reqs: map<u32, Opened>) {
    && ConnOk(s.conn, out, grants)
    && PendingOk(s.pending + todo, reqs)
    && BodiesOk(s.pending + todo, out, reqs)
    && StreamsOk(s.conn.streams, s.pending + todo, out, grants, reqs)
    && OutKnown(out, reqs) && GrantsKnown(grants, reqs) && 0 !in reqs
  }

  // ---- One buffered body tried again ------------------------------------------------------------

  lemma PendingForMiddle(a: seq<PendingBody>, p: PendingBody, b: seq<PendingBody>, sid: u32)
    requires Absent(a, p.streamId) && Absent(b, p.streamId)
    ensures sid != p.streamId ==> PendingFor(a + [p] + b, sid) == PendingFor(a + b, sid)
    ensures PendingFor(a + [p] + b, p.streamId) == p.data && PendingFor(a + b, p.streamId) == []
  {
    PendingForAppend(a, [p], sid);
    PendingForAppend(a + [p], b, sid);
    PendingForAppend(a, b, sid);
    PendingForAppend(a, [p], p.streamId);
    PendingForAppend(a + [p], b, p.streamId);
    PendingForAbsent(a, p.streamId);
    PendingForAbsent(b, p.streamId);
    PendingForAppend(a, b, p.streamId);
    assert [p][1..] == [];
  }

  predicate Absent(pend: seq<PendingBody>, sid: u32) {
    forall i :: 0 <= i < |pend| ==> pend[i].streamId != sid
  }

  lemma DistinctAround(a: seq<PendingBody>, p: PendingBody, b: seq<PendingBody>, reqs: map<u32, Opened>)
    requires PendingOk(a + [p] + b, reqs)
    ensures p.data != [] && p.endStream && p.streamId in reqs
    ensures Absent(a, p.streamId) && Absent(b, p.streamId) && PendingOk(a + b, reqs)
  {
    var all := a + [p] + b;
    assert all[|a|] == p;
    assert forall i :: 0 <= i < |a| ==> a[i] == all[i];
    assert forall i :: 0 <= i < |b| ==> b[i] == all[|a| + 1 + i];
  }

  lemma DistinctSwap(a: seq<PendingBody>, p: PendingBody, b: seq<PendingBody>, q: PendingBody, reqs: map<u32, Opened>)
    requires PendingOk(a + [p] + b, reqs)
    requires q.streamId == p.streamId && q.data != [] && q.endStream
    ensures PendingOk(a + [q] + b, reqs)
  {
    var all, swapped := a + [p] + b, a + [q] + b;
    assert all[|a|] == p;
    assert forall i :: 0 <= i < |all| ==> swapped[i].streamId == all[i].streamId;
  }

  /** Frames that do not belong to a stream change nothing that is read off for it. */
  lemma OtherFrames(out: seq<H2Frame>, fs: seq<H2Frame>, sid: u32)
    requires forall i :: 0 <= i < |fs| ==> !Belongs(fs[i], sid)
    ensures OnStream(out + fs, sid) == OnStream(out, sid)
    ensures SentOn(out + fs, sid) == SentOn(out, sid)
    ensures WasReset(out, sid) ==> WasReset(out + fs, sid)
  {
    OnStreamAppend(out, fs, sid);
    OnStreamNone(fs, sid);
    if WasReset(out, sid) {
      var i :| 0 <= i < |out| && out[i].RstStream? && out[i].streamId == sid;
      assert (out + fs)[i] == out[i];
    }
  }

  lemma DataRunExtend(a: seq<H2Frame>, b: seq<H2Frame>, sid: u32, fin: bool)
    requires DataRun(a, sid, false) && DataRun(b, sid, fin)
    ensures DataRun(a + b, sid, fin)
  {
    assert forall i :: 0 <= i < |a + b| ==> (a + b)[i] == if i < |a| then a[i] else b[i - |a|];
  }

  lemma ExtendRun(before: seq<H2Frame>, fs: seq<H2Frame>, o: Opened, sid: u32, data: bytes, n: nat)
    requires RequestRun(before, o, sid, data) && data != [] && n <= |data|
    requires Payloads(fs) == data[..n] && DataRun(fs, sid, n == |data|)
    ensures RequestRun(before + fs, o, sid, data[n..])
  {
    var h := |o.head|;
    assert (before + fs)[..h] == before[..h];
    assert (before + fs)[h..] == before[h..] + fs;
    DataRunExtend(before[h..], fs, sid, n == |data|);
    PayloadsAppend(before[h..], fs);
    assert data[..n] + data[n..] == data;
    Assoc(Payloads(before[h..]), data[..n], data[n..]);
  }

  /** Sending the first `n` buffered bytes of a stream extends its body run by exactly those. */
  lemma ExtendBody(pend: seq<PendingBody>, pend': seq<PendingBody>, out: seq<H2Frame>, fs: seq<H2Frame>,
                   o: Opened, sid: u32, data: bytes, n: nat)
    requires BodyOk(pend, out, o, sid)
    requires PendingFor(pend, sid) == data != [] && n <= |data| && PendingFor(pend', sid) == data[n..]
    requires Payloads(fs) == data[..n] && DataRun(fs, sid, n == |data|)
    ensures BodyOk(pend', out + fs, o, sid)
    ensures SentOn(out + fs, sid) == SentOn(out, sid) + data[..n]
  {
    OnStreamAppend(out, fs, sid);
    OnStreamAll(fs, sid);
    ExtendRun(OnStream(out, sid), fs, o, sid, data, n);
    PayloadsAppend(OnStream(out, sid), fs);
  }

  lemma KeepBody(pend: seq<PendingBody>, pend': seq<PendingBody>, out: seq<H2Frame>, fs: seq<H2Frame>,
                 o: Opened, sid: u32)
    requires BodyOk(pend, out, o, sid)
    requires PendingFor(pend', sid) == PendingFor(pend, sid)
    requires forall i :: 0 <= i < |fs| ==> !Belongs(fs[i], sid)
    ensures BodyOk(pend', out + fs, o, sid)
  {
    OtherFrames(out, fs, sid);
  }

  lemma KeepStream(s: Stream, pend: seq<PendingBody>, pend': seq<PendingBody>, out: seq<H2Frame>,
                   fs: seq<H2Frame>, grants: seq<Grant>, sid: u32)
    requires StreamOk(s, sid, pend, out, grants)
    requires PendingFor(pend', sid) == PendingFor(pend, sid)
    requires forall i :: 0 <= i < |fs| ==> !Belongs(fs[i], sid)
    ensures StreamOk(s, sid, pend', out + fs, grants)
  {
    OtherFrames(out, fs, sid);
  }

  /** The stream whose bytes were sent: `n` bytes less credit, and done sending when none is left. */
  lemma SpendStream(s: Stream, pend: seq<PendingBody>, pend': seq<PendingBody>, out: seq<H2Frame>,
                    fs: seq<H2Frame>, grants: seq<Grant>, sid: u32, data: bytes, n: nat)
    requires StreamOk(s, sid, pend, out, grants)
    requires n <= |data| && n <= SendAvailable(s)
    requires PendingFor(pend, sid) == data != [] && PendingFor(pend', sid) == data[n..]
    requires SentOn(out + fs, sid) == SentOn(out, sid) + data[..n]
    ensures var t := ConsumeSend(s, n);
            StreamOk(if n == |data| then SendEndStream(t) else t, sid, pend', out + fs, grants)
  {
    StreamStepsInRange(s, n, 0, 0);
    if WasReset(out, sid) {
      var i :| 0 <= i < |out| && out[i].RstStream? && out[i].streamId == sid;
      assert (out + fs)[i] == out[i];
    }
  }

  /** The bytes buffered per stream after one entry has been tried. */
  lemma PendingAfter(s: SendState, p: PendingBody, rest: seq<PendingBody>, reqs: map<u32, Opened>)
    requires s.conn.remote.maxFrameSize > 0
    requires PendingOk(s.pending + ([p] + rest), reqs)
    ensures var t, n := BuildData(s, p.streamId, p.data, true).0, Allowed(s.conn, p.streamId, p.data);
            var pend, pend' := s.pending + ([p] + rest), t.pending + rest;
            && p.data != [] && p.endStream && p.streamId in reqs
            && PendingOk(pend', reqs)
            && PendingFor(pend, p.streamId) == p.data && PendingFor(pend', p.streamId) == p.data[n..]
            && forall sid :: sid != p.streamId ==> PendingFor(pend', sid) == PendingFor(pend, sid)
  {
    var a, n := s.pending, Allowed(s.conn, p.streamId, p.data);
    assert a + ([p] + rest) == a + [p] + rest;
    DistinctAround(a, p, rest, reqs);
    var q := PendingBody(p.streamId, p.data[n..], true);
    if n < |p.data| {
      DistinctSwap(a, p, rest, q, reqs);
    } else {
      assert a + [] == a;
    }
    forall sid: u32
      ensures sid != p.streamId ==>
                PendingFor(a + [p] + rest, sid) == PendingFor(a + rest, sid) == PendingFor(a + [q] + rest, sid)
      ensures PendingFor(a + [p] + rest, p.streamId) == p.data && PendingFor(a + rest, p.streamId) == []
      ensures PendingFor(a + [q] + rest, p.streamId) == q.data
    {
      PendingForMiddle(a, p, rest, sid);
      PendingForMiddle(a, q, rest, sid);
    }
  }
}
