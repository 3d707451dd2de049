/** The body sender (lkh2/src/engine.rs, `build_data` and `drain_pending_data`). */
module Sender {
  import opened Wire
  import opened Frames
  import opened Streams
  import opened Connection

  datatype PendingBody = PendingBody(streamId: u32, data: bytes, endStream: bool)

  /** Connection and buffered bodies: all that sending reads or changes. */
  datatype SendState = SendState(conn: Conn, pending: seq<PendingBody>)

  /** DATA frames of at most `maxFrame` bytes carrying `data` in order; the last one carries `fin`. */
  function Cut(sid: u32, data: bytes, maxFrame: nat, fin: bool): seq<H2Frame>
    requires maxFrame > 0
    decreases |data|
  {
    if data == [] then []
    else if |data| <= maxFrame then [Data(sid, data, fin, None)]
    else [Data(sid, data[..maxFrame], false, None)] + Cut(sid, data[maxFrame..], maxFrame, fin)
  }

  /** Charge `n` bytes to both windows. */
  function Spend(c: Conn, sid: u32, n: nat): Conn {
    var d := ConsumeConnSend(c, n);
    if sid in d.streams then WithStream(d, sid, ConsumeSend(d.streams[sid], n)) else d
  }

  /** How much of `data` the two windows let through now. */
  function Allowed(c: Conn, sid: u32, data: bytes): (n: nat)
    ensures n <= |data|
  {
    Min(|data|, SendAvailableOn(c, sid))
  }

  /** What `build_data` amounts to: send the longest prefix both windows allow, keep the rest, and
      end the stream with the last byte. An empty final body is one empty frame. */
  function BuildData(s: SendState, sid: u32, data: bytes, fin: bool): (SendState, seq<H2Frame>)
    requires s.conn.remote.maxFrameSize > 0
  {
    if data == [] then
      if fin then (s.(conn := EndLocal(s.conn, sid)), [Data(sid, [], true, None)]) else (s, [])
    else
      var n := Allowed(s.conn, sid, data);
      var done := fin && n == |data|;
      var spent := Spend(s.conn, sid, n);
      (SendState(if done then EndLocal(spent, sid) else spent,
                 s.pending + if n < |data| then [PendingBody(sid, data[n..], fin)] else []),
       Cut(sid, data[..n], s.conn.remote.maxFrameSize, done))
  }

  /** `drain_pending_data` over the entries taken from the buffer. */
  function Drain(s: SendState, todo: seq<PendingBody>): (r: (SendState, seq<H2Frame>))
    requires s.conn.remote.maxFrameSize > 0
    ensures r.0.conn.remote == s.conn.remote
    decreases |todo|
  {
    if todo == [] then (s, [])
    else
      var (s1, sent) := BuildData(s, todo[0].streamId, todo[0].data, todo[0].endStream);
      var (s2, later) := Drain(s1, todo[1..]);
      (s2, sent + later)
  }

  // ---- The frames -----------------------------------------------------------------------------

  function Payloads(fs: seq<H2Frame>): bytes {
    if fs == [] then []
    else Payloads(fs[..|fs| - 1]) + (if fs[|fs| - 1].Data? then fs[|fs| - 1].data else [])
  }

  lemma {:induction false} PayloadsAppend(a: seq<H2Frame>, b: seq<H2Frame>)
    ensures Payloads(a + b) == Payloads(a) + Payloads(b)
    decreases |b|
  {
    if b == [] {
      assert a + b == a;
    } else {
      var last := b[|b| - 1];
      assert (a + b)[..|a + b| - 1] == a + b[..|b| - 1];
      PayloadsAppend(a, b[..|b| - 1]);
    }
  }

  /** A run of non-empty DATA frames on one stream, flagged END_STREAM on the last and only if `fin`. */
  predicate DataRun(fs: seq<H2Frame>, sid: u32, fin: bool) {
    && (forall i :: 0 <= i < |fs| ==>
          && fs[i].Data? && fs[i].streamId == sid && fs[i].data != [] && fs[i].padding.None?
          && (fs[i].endStream <==> fin && i == |fs| - 1))
    && (fin ==> fs != [])
  }

  predicate AllButLastFull(fs: seq<H2Frame>, maxFrame: nat) {
    forall i :: 0 <= i < |fs| ==> fs[i].Data? && |fs[i].data| <= maxFrame
                                  && (i < |fs| - 1 ==> |fs[i].data| == maxFrame)
  }

  lemma PayloadsCons(f: H2Frame, fs: seq<H2Frame>)
    requires f.Data?
    ensures Payloads([f] + fs) == f.data + Payloads(fs)
  {
    PayloadsAppend([f], fs);
    assert [f][..0] == [];
    assert Payloads([f]) == [] + f.data == f.data;
  }

  lemma {:induction false} CutPayloads(sid: u32, data: bytes, maxFrame: nat, fin: bool)
    requires maxFrame > 0
    ensures Payloads(Cut(sid, data, maxFrame, fin)) == data
    decreases |data|
  {
    if |data| > maxFrame {
      var first, later := data[..maxFrame], data[maxFrame..];
      CutPayloads(sid, later, maxFrame, fin);
      PayloadsCons(Data(sid, first, false, None), Cut(sid, later, maxFrame, fin));
      assert first + later == data;
    } else if data != [] {
      PayloadsCons(Data(sid, data, fin, None), []);
    }
  }

  lemma {:induction false} CutRuns(sid: u32, data: bytes, maxFrame: nat, fin: bool)
    requires maxFrame > 0 && (fin ==> data != [])
    ensures var fs := Cut(sid, data, maxFrame, fin); DataRun(fs, sid, fin) && AllButLastFull(fs, maxFrame)
    ensures Cut(sid, data, maxFrame, fin) == [] <==> data == []
    decreases |data|
  {
    if |data| > maxFrame {
      CutRuns(sid, data[maxFrame..], maxFrame, fin);
    }
  }

  /** The cut carries exactly the data, in full frames except the last. */
  lemma CutShape(sid: u32, data: bytes, maxFrame: nat, fin: bool)
    requires maxFrame > 0 && (fin ==> data != [])
    ensures var fs := Cut(sid, data, maxFrame, fin);
            Payloads(fs) == data && DataRun(fs, sid, fin) && AllButLastFull(fs, maxFrame)
  {
    CutPayloads(sid, data, maxFrame, fin);
    CutRuns(sid, data, maxFrame, fin);
  }

  /** The greedy sender meets its one-line specification: the payloads are the longest prefix the
      windows allow, cut into full frames; what stays is exactly the rest; and it stays only when
      one of the windows is exhausted. */
  lemma BuildDataIsGreedy(s: SendState, sid: u32, data: bytes, fin: bool)
    requires s.conn.remote.maxFrameSize > 0 && data != []
    ensures var (t, fs) := BuildData(s, sid, data, fin);
            var n := Min(|data|, SendAvailableOn(s.conn, sid));
            && Payloads(fs) == data[..n]
            && DataRun(fs, sid, fin && n == |data|)
            && AllButLastFull(fs, s.conn.remote.maxFrameSize)
            && (if n == |data| then t.pending == s.pending
                else t.pending == s.pending + [PendingBody(sid, data[n..], fin)]
                     && SendAvailableOn(t.conn, sid) == 0)
            && SendAvailableOn(t.conn, sid) == SendAvailableOn(s.conn, sid) - n
  {
    var n := Allowed(s.conn, sid, data);
    CutShape(sid, data[..n], s.conn.remote.maxFrameSize, fin && n == |data|);
  }

  // ---- After a drain nothing sendable is left --------------------------------------------------

  predicate NoMoreCredit(c: Conn, c': Conn) {
    && c'.sendWindow <= c.sendWindow
    && c'.streams.Keys == c.streams.Keys
    && forall sid :: sid in c.streams ==> c'.streams[sid].sendWindow <= c.streams[sid].sendWindow
  }

  predicate Blocked(s: SendState) {
    forall i :: 0 <= i < |s.pending| ==> SendAvailableOn(s.conn, s.pending[i].streamId) == 0
  }

  lemma BuildDataStaysBlocked(s: SendState, sid: u32, data: bytes, fin: bool)
    requires s.conn.remote.maxFrameSize > 0 && Blocked(s)
    ensures var t := BuildData(s, sid, data, fin).0;
            NoMoreCredit(s.conn, t.conn) && Blocked(t) && t.conn.remote == s.conn.remote
  {
    var t := BuildData(s, sid, data, fin).0;
    assert NoMoreCredit(s.conn, t.conn);
    forall i | 0 <= i < |t.pending|
      ensures SendAvailableOn(t.conn, t.pending[i].streamId) == 0
    {
      if i < |s.pending| {
        assert t.pending[i] == s.pending[i];
      }
    }
  }

  /** After a drain every body still buffered is held back by its stream's window or by the
      connection's. */
  lemma {:induction false} DrainLeavesBlocked(s: SendState, todo: seq<PendingBody>)
    requires s.conn.remote.maxFrameSize > 0 && Blocked(s)
    ensures Blocked(Drain(s, todo).0)
    decreases |todo|
  {
    if todo != [] {
      BuildDataStaysBlocked(s, todo[0].streamId, todo[0].data, todo[0].endStream);
      DrainLeavesBlocked(BuildData(s, todo[0].streamId, todo[0].data, todo[0].endStream).0, todo[1..]);
    }
  }

  /** A drain in two portions. */
  lemma {:induction false} DrainSplit(s: SendState, a: seq<PendingBody>, b: seq<PendingBody>)
    requires s.conn.remote.maxFrameSize > 0
    ensures Drain(s, a + b) == (Drain(Drain(s, a).0, b).0, Drain(s, a).1 + Drain(Drain(s, a).0, b).1)
    decreases |a|
  {
    if a == [] {
      assert a + b == b;
      assert [] + Drain(s, b).1 == Drain(s, b).1;
    } else {
      var (t, fs) := BuildData(s, a[0].streamId, a[0].data, a[0].endStream);
      assert (a + b)[1..] == a[1..] + b;
      DrainSplit(t, a[1..], b);
      Assoc(fs, Drain(t, a[1..]).1, Drain(Drain(s, a).0, b).1);
    }
  }

  /** Without connection credit no byte goes out. */
  lemma {:induction false} DrainWithoutCredit(s: SendState, todo: seq<PendingBody>)
    requires s.conn.remote.maxFrameSize > 0 && s.conn.sendWindow <= 0
    ensures Payloads(Drain(s, todo).1) == []
    decreases |todo|
  {
    if todo != [] {
      var (t, fs) := BuildData(s, todo[0].streamId, todo[0].data, todo[0].endStream);
      NoCreditNoBytes(s, todo[0].streamId, todo[0].data, todo[0].endStream);
      DrainWithoutCredit(t, todo[1..]);
      PayloadsAppend(fs, Drain(t, todo[1..]).1);
    }
  }

  lemma NoCreditNoBytes(s: SendState, sid: u32, data: bytes, fin: bool)
    requires s.conn.remote.maxFrameSize > 0 && s.conn.sendWindow <= 0
    ensures Payloads(BuildData(s, sid, data, fin).1) == [] && BuildData(s, sid, data, fin).0.conn.sendWindow <= 0
  {
    if data == [] {
      var fs := BuildData(s, sid, data, fin).1;
      assert fs != [] ==> fs[..0] == [];
    } else {
      BuildDataIsGreedy(s, sid, data, fin);
    }
  }

  /** Buffered bodies are served in the order they were buffered: bytes of a later one go out only if the
      earlier one is sent whole or held back by its own stream. */
  lemma OldestFirst(s: SendState, before: seq<PendingBody>, p: PendingBody, after: seq<PendingBody>)
    requires s.conn.remote.maxFrameSize > 0 && p.data != []
    ensures var s1 := Drain(s, before).0;
            var (s2, mine) := BuildData(s1, p.streamId, p.data, p.endStream);
            && s2.conn.remote == s.conn.remote
            && var later := Drain(s2, after).1;
               && Drain(s, before + ([p] + after)).1 == Drain(s, before).1 + (mine + later)
               && (Payloads(later) != [] ==>
                     || Payloads(mine) == p.data
                     || (p.streamId in s2.conn.streams ==> SendAvailable(s2.conn.streams[p.streamId]) == 0))
  {
    DrainSplit(s, before, [p] + after);
    var s1 := Drain(s, before).0;
    var s2 := BuildData(s1, p.streamId, p.data, p.endStream).0;
    assert ([p] + after)[1..] == after;
    BuildDataIsGreedy(s1, p.streamId, p.data, p.endStream);
    if s2.conn.sendWindow <= 0 {
      DrainWithoutCredit(s2, after);
    }
  }

  // ---- The loop is the specification ------------------------------------------------------------

  lemma CutHead(sid: u32, data: bytes, maxFrame: nat, fin: bool, k: nat)
    requires maxFrame > 0 && 0 < k == Min(|data|, maxFrame) && (fin ==> k < |data|)
    ensures Cut(sid, data, maxFrame, fin)
            == [Data(sid, data[..k], false, None)] + Cut(sid, data[k..], maxFrame, fin)
  {
    if k == |data| {
      assert data[..k] == data && data[k..] == [];
    }
  }

  /** One turn of the `build_data` loop that sends a chunk but not the whole remainder. */
  lemma SendChunk(s: SendState, sid: u32, data: bytes, fin: bool, k: nat)
    requires s.conn.remote.maxFrameSize > 0
    requires k == Min(Min(|data|, s.conn.remote.maxFrameSize), SendAvailableOn(s.conn, sid))
    requires 0 < k < |data|
    ensures var next := s.(conn := Spend(s.conn, sid, k));
            var (t, fs) := BuildData(next, sid, data[k..], fin);
            BuildData(s, sid, data, fin) == (t, [Data(sid, data[..k], false, None)] + fs)
  {
    var next := Spend(s.conn, sid, k);
    var m := Allowed(next, sid, data[k..]);
    AllowedAfter(s.conn, sid, data, k);
    SpendTwice(s.conn, sid, k, m);
    SliceTwice(data, k, m);
    CutHead(sid, data[..k + m], s.conn.remote.maxFrameSize, fin && k + m == |data|, k);
  }

  lemma AllowedAfter(c: Conn, sid: u32, data: bytes, k: nat)
    requires k <= Min(|data|, SendAvailableOn(c, sid))
    ensures SendAvailableOn(Spend(c, sid, k), sid) == SendAvailableOn(c, sid) - k
    ensures Allowed(c, sid, data) == k + Allowed(Spend(c, sid, k), sid, data[k..])
  {
  }

  lemma SliceTwice(data: bytes, k: nat, m: nat)
    requires k + m <= |data|
    ensures data[k..][m..] == data[k + m..]
    ensures data[k..][..m] == data[..k + m][k..]
    ensures data[..k + m][..k] == data[..k]
  {
  }

  lemma SpendTwice(c: Conn, sid: u32, k: nat, m: nat)
    requires k <= SendAvailableOn(c, sid)
    requires m <= SendAvailableOn(Spend(c, sid, k), sid)
    ensures Spend(Spend(c, sid, k), sid, m) == Spend(c, sid, k + m)
  {
  }

  /** The turn that sends the rest. */
  lemma SendLast(s: SendState, sid: u32, data: bytes, fin: bool)
    requires s.conn.remote.maxFrameSize > 0
    requires 0 < |data| <= Min(s.conn.remote.maxFrameSize, SendAvailableOn(s.conn, sid))
    ensures var spent := Spend(s.conn, sid, |data|);
            BuildData(s, sid, data, fin)
            == (s.(conn := if fin then EndLocal(spent, sid) else spent), [Data(sid, data, fin, None)])
  {
    assert data[..|data|] == data;
    assert s.pending + [] == s.pending;
  }

  /** The turn that finds no credit. */
  lemma SendBlocked(s: SendState, sid: u32, data: bytes, fin: bool)
    requires s.conn.remote.maxFrameSize > 0
    requires data != [] && SendAvailableOn(s.conn, sid) == 0
    ensures BuildData(s, sid, data, fin) == (s.(pending := s.pending + [PendingBody(sid, data, fin)]), [])
  {
    assert data[0..] == data;
    assert Spend(s.conn, sid, 0) == s.conn;
  }

  /** What a call is to return once `sent` is out and `remaining` is left. */
  function Resume(s: SendState, sid: u32, remaining: bytes, fin: bool, sent: seq<H2Frame>)
    : (SendState, seq<H2Frame>)
    requires s.conn.remote.maxFrameSize > 0
  {
    if remaining == [] && sent != [] then (s, sent)
    else
      var (t, fs) := BuildData(s, sid, remaining, fin);
      (t, sent + fs)
  }

  lemma ResumeStart(s: SendState, sid: u32, data: bytes, fin: bool)
    requires s.conn.remote.maxFrameSize > 0
    ensures Resume(s, sid, data, fin, []) == BuildData(s, sid, data, fin)
  {
    assert [] + BuildData(s, sid, data, fin).1 == BuildData(s, sid, data, fin).1;
  }

  lemma ResumeBlocked(s: SendState, sid: u32, remaining: bytes, fin: bool, sent: seq<H2Frame>)
    requires s.conn.remote.maxFrameSize > 0 && remaining != [] && SendAvailableOn(s.conn, sid) == 0
    ensures Resume(s, sid, remaining, fin, sent)
            == (s.(pending := s.pending + [PendingBody(sid, remaining, fin)]), sent)
  {
    SendBlocked(s, sid, remaining, fin);
    assert sent + [] == sent;
  }

  /** The state after a chunk that leaves `rest`. */
  function AfterChunk(c: Conn, sid: u32, n: nat, last: bool): Conn {
    if last then EndLocal(Spend(c, sid, n), sid) else Spend(c, sid, n)
  }

  lemma ResumeChunk(s: SendState, sid: u32, remaining: bytes, fin: bool, sent: seq<H2Frame>, n: nat)
    requires s.conn.remote.maxFrameSize > 0
    requires n == Min(Min(|remaining|, s.conn.remote.maxFrameSize), SendAvailableOn(s.conn, sid)) && n > 0
    ensures var last := fin && n == |remaining|;
            Resume(s, sid, remaining, fin, sent)
            == Resume(s.(conn := AfterChunk(s.conn, sid, n, last)), sid, remaining[n..], fin,
                      sent + [Data(sid, remaining[..n], last, None)])
  {
    if n == |remaining| {
      SendLast(s, sid, remaining, fin);
      assert remaining[..n] == remaining;
    } else {
      SendChunk(s, sid, remaining, fin, n);
      var next := s.(conn := Spend(s.conn, sid, n));
      Assoc(sent, [Data(sid, remaining[..n], false, None)], BuildData(next, sid, remaining[n..], fin).1);
    }
  }

  /** What a drain is to return once `sent` is out and `todo` is left. */
  function DrainRest(s: SendState, todo: seq<PendingBody>, sent: seq<H2Frame>): (SendState, seq<H2Frame>)
    requires s.conn.remote.maxFrameSize > 0
  {
    (Drain(s, todo).0, sent + Drain(s, todo).1)
  }

  /** One turn of the `drain_pending_data` loop. */
  lemma DrainTurn(s: SendState, todo: seq<PendingBody>, sent: seq<H2Frame>)
    requires s.conn.remote.maxFrameSize > 0 && todo != []
    ensures var (t, fs) := BuildData(s, todo[0].streamId, todo[0].data, todo[0].endStream);
            t.conn.remote == s.conn.remote && DrainRest(s, todo, sent) == DrainRest(t, todo[1..], sent + fs)
  {
    var (t, fs) := BuildData(s, todo[0].streamId, todo[0].data, todo[0].endStream);
    Assoc(sent, fs, Drain(t, todo[1..]).1);
  }

  lemma DrainEnds(s: SendState, todo: seq<PendingBody>, sent: seq<H2Frame>)
    requires s.conn.remote.maxFrameSize > 0
    ensures DrainRest(s, [], sent) == (s, sent)
    ensures DrainRest(s, todo, []) == Drain(s, todo)
  {
    assert sent + [] == sent;
    assert [] + Drain(s, todo).1 == Drain(s, todo).1;
  }
}
