/** Connection state (lkh2/src/conn_state.rs): settings, the stream table and the connection windows. */
module Connection {
  import opened Wire
  import opened Frames
  import opened Codec
  import opened Streams

  const DEFAULT_INITIAL_WINDOW: nat := 65535

  datatype H2Settings = H2Settings(
    headerTableSize: u32, enablePush: bool, maxConcurrentStreams: Option<u32>,
    initialWindowSize: u32, maxFrameSize: u32, maxHeaderListSize: Option<u32>)

  const DEFAULT_SETTINGS: H2Settings := H2Settings(4096, true, None, DEFAULT_INITIAL_WINDOW, 16384, None)

  /** `H2Settings::apply`; unknown identifiers are ignored. */
  function ApplyParam(s: H2Settings, p: SettingsParameter): Option<H2Settings> {
    if p.id == 1 then Some(s.(headerTableSize := p.value))
    else if p.id == 2 then (if p.value > 1 then None else Some(s.(enablePush := p.value == 1)))
    else if p.id == 3 then Some(s.(maxConcurrentStreams := Some(p.value)))
    else if p.id == 4 then (if p.value > I32_MAX then None else Some(s.(initialWindowSize := p.value)))
    else if p.id == 5 then
      (if MIN_MAX_FRAME_SIZE <= p.value <= MAX_FRAME_SIZE_LIMIT then Some(s.(maxFrameSize := p.value)) else None)
    else if p.id == 6 then Some(s.(maxHeaderListSize := Some(p.value)))
    else Some(s)
  }

  /** A list of parameters, in order, up to the first bad one: what was applied, and whether all were. */
  function ApplyParams(s: H2Settings, ps: seq<SettingsParameter>): (H2Settings, bool)
    decreases |ps|
  {
    if ps == [] then (s, true)
    else
      match ApplyParam(s, ps[0])
      case None => (s, false)
      case Some(t) => ApplyParams(t, ps[1..])
  }

  /** `apply_profile_settings` skips what does not apply and goes on. */
  function ApplyProfile(s: H2Settings, ps: seq<SettingsParameter>): H2Settings
    decreases |ps|
  {
    if ps == [] then s
    else
      match ApplyParam(s, ps[0])
      case None => ApplyProfile(s, ps[1..])
      case Some(t) => ApplyProfile(t, ps[1..])
  }

  // ---- What parameters set ------------------------------------------------------------------------

  /** The values section 6.5.2 of RFC 7540 allows. */
  predicate Legal(p: SettingsParameter) {
    && (p.id == 2 ==> p.value <= 1)
    && (p.id == 4 ==> p.value <= 0x7FFF_FFFF)
    && (p.id == 5 ==> 16384 <= p.value <= 16777215)
  }

  /** The value of the last legal parameter with this id. */
  function LastLegal(ps: seq<SettingsParameter>, id: u16): Option<u32> {
    if ps == [] then None
    else
      var p := ps[|ps| - 1];
      if p.id == id && Legal(p) then Some(p.value)
      else LastLegal(ps[..|ps| - 1], id)
  }

  lemma {:induction false} LastLegalIs(ps: seq<SettingsParameter>, id: u16)
    ensures var r := LastLegal(ps, id);
            && (r.None? <==> forall i :: 0 <= i < |ps| ==> !(ps[i].id == id && Legal(ps[i])))
            && (r.Some? ==> exists i :: 0 <= i < |ps| && ps[i] == SettingsParameter(id, r.value) && Legal(ps[i])
                                        && forall j :: i < j < |ps| ==> !(ps[j].id == id && Legal(ps[j])))
  {
    if ps != [] {
      LastLegalIs(ps[..|ps| - 1], id);
    }
  }

  /** How many leading parameters are legal. */
  function LegalCount(ps: seq<SettingsParameter>): (n: nat)
    ensures n <= |ps| && (forall i :: 0 <= i < n ==> Legal(ps[i])) && (n < |ps| ==> !Legal(ps[n]))
  {
    if ps == [] || !Legal(ps[0]) then 0 else 1 + LegalCount(ps[1..])
  }

  function Or(x: Option<u32>, otherwise: u32): u32 {
    if x.Some? then x.value else otherwise
  }

  /** `t` is what the parameters make of `s`: each of the six settings has the value of the last legal
      parameter with its id, or its old one; other ids change nothing. */
  predicate SetBy(s: H2Settings, ps: seq<SettingsParameter>, t: H2Settings) {
    && t.headerTableSize == Or(LastLegal(ps, 1), s.headerTableSize)
    && t.enablePush == (if LastLegal(ps, 2).Some? then LastLegal(ps, 2).value == 1 else s.enablePush)
    && t.maxConcurrentStreams == (if LastLegal(ps, 3).Some? then LastLegal(ps, 3) else s.maxConcurrentStreams)
    && t.initialWindowSize == Or(LastLegal(ps, 4), s.initialWindowSize)
    && t.maxFrameSize == Or(LastLegal(ps, 5), s.maxFrameSize)
    && t.maxHeaderListSize == (if LastLegal(ps, 6).Some? then LastLegal(ps, 6) else s.maxHeaderListSize)
  }

  lemma LastLegalOne(p: SettingsParameter, id: u16)
    ensures LastLegal([p], id) == if p.id == id && Legal(p) then Some(p.value) else None
  {
    assert [p][..0] == [];
  }

  lemma {:induction false} LastLegalAppend(a: seq<SettingsParameter>, b: seq<SettingsParameter>, id: u16)
    ensures LastLegal(a + b, id) == if LastLegal(b, id).Some? then LastLegal(b, id) else LastLegal(a, id)
    decreases |b|
  {
    if b == [] {
      assert a + b == a;
    } else {
      assert (a + b)[..|a + b| - 1] == a + b[..|b| - 1];
      LastLegalAppend(a, b[..|b| - 1], id);
    }
  }

  /** Parameters in two portions. */
  lemma SetThen(s: H2Settings, a: seq<SettingsParameter>, m: H2Settings, b: seq<SettingsParameter>, t: H2Settings)
    requires SetBy(s, a, m) && SetBy(m, b, t)
    ensures SetBy(s, a + b, t)
  {
    LastLegalAppend(a, b, 1);
    LastLegalAppend(a, b, 2);
    LastLegalAppend(a, b, 3);
    LastLegalAppend(a, b, 4);
    LastLegalAppend(a, b, 5);
    LastLegalAppend(a, b, 6);
  }

  lemma SetByNone(s: H2Settings)
    ensures SetBy(s, [], s)
  {
  }

  /** One parameter is refused exactly when it is illegal, and else sets its own field. */
  lemma ParamSets(s: H2Settings, p: SettingsParameter)
    ensures ApplyParam(s, p).Some? <==> Legal(p)
    ensures SetBy(s, [p], if Legal(p) then ApplyParam(s, p).value else s)
  {
    LastLegalOne(p, 1);
    LastLegalOne(p, 2);
    LastLegalOne(p, 3);
    LastLegalOne(p, 4);
    LastLegalOne(p, 5);
    LastLegalOne(p, 6);
  }

  /** A peer's list is accepted exactly when every parameter is legal; up to the first illegal one each
      setting takes the last value given. */
  lemma {:induction false} ParamsSet(s: H2Settings, ps: seq<SettingsParameter>)
    ensures var (t, ok) := ApplyParams(s, ps);
            && (ok <==> forall i :: 0 <= i < |ps| ==> Legal(ps[i])) && (ok <==> LegalCount(ps) == |ps|)
            && SetBy(s, ps[..LegalCount(ps)], t)
    decreases |ps|
  {
    if ps == [] {
      SetByNone(s);
    } else {
      ParamSets(s, ps[0]);
      if Legal(ps[0]) {
        var m := ApplyParam(s, ps[0]).value;
        ParamsSet(m, ps[1..]);
        assert ps[..LegalCount(ps)] == [ps[0]] + ps[1..][..LegalCount(ps[1..])];
        SetThen(s, [ps[0]], m, ps[1..][..LegalCount(ps[1..])], ApplyParams(s, ps).0);
      }
    }
  }

  /** A profile's list does the same with illegal values skipped. */
  lemma {:induction false} ProfileSets(s: H2Settings, ps: seq<SettingsParameter>)
    ensures SetBy(s, ps, ApplyProfile(s, ps))
    decreases |ps|
  {
    if ps != [] {
      var m := if Legal(ps[0]) then ApplyParam(s, ps[0]).value else s;
      ParamSets(s, ps[0]);
      ProfileSets(m, ps[1..]);
      assert ps == [ps[0]] + ps[1..];
      SetThen(s, [ps[0]], m, ps[1..], ApplyProfile(s, ps));
    }
  }

  predicate ValidSettings(s: H2Settings) {
    s.initialWindowSize <= I32_MAX && MIN_MAX_FRAME_SIZE <= s.maxFrameSize <= MAX_FRAME_SIZE_LIMIT
  }

  lemma {:induction false} ParamsKeepValid(s: H2Settings, ps: seq<SettingsParameter>)
    requires ValidSettings(s)
    ensures ValidSettings(ApplyParams(s, ps).0) && ValidSettings(ApplyProfile(s, ps))
    decreases |ps|
  {
    if ps != [] {
      match ApplyParam(s, ps[0])
      case None => ParamsKeepValid(s, ps[1..]);
      case Some(t) => ParamsKeepValid(t, ps[1..]);
    }
  }

  type Table = map<u32, Stream>

  datatype Conn = Conn(
    local: H2Settings, remote: H2Settings, pendingSettings: seq<H2Settings>,
    streams: Table, nextStreamId: u32,
    sendWindow: int, recvWindow: int,
    error: Option<u32>, goawayReceived: bool, goawayLastStreamId: Option<u32>)

  /** A client connection with the profile's SETTINGS pending and its WINDOW_UPDATE applied; an
      increment that would overflow is ignored. */
  function ClientConn(profile: seq<SettingsParameter>, windowUpdate: u32): Conn {
    var local := DEFAULT_SETTINGS.(enablePush := false);
    var recv := DEFAULT_INITIAL_WINDOW + windowUpdate;
    Conn(local, DEFAULT_SETTINGS, [ApplyProfile(local, profile)], map[], 1,
         DEFAULT_INITIAL_WINDOW, if recv > I32_MAX then DEFAULT_INITIAL_WINDOW else recv,
         None, false, None)
  }

  function EffectiveLocalWindow(c: Conn): u32 {
    if c.pendingSettings == [] then c.local.initialWindowSize
    else c.pendingSettings[|c.pendingSettings| - 1].initialWindowSize
  }

  function ActiveStreams(t: Table): set<u32> {
    set sid | sid in t && t[sid].state.IsActive()
  }

  predicate CanOpenStream(c: Conn) {
    c.remote.maxConcurrentStreams.Some? ==> |ActiveStreams(c.streams)| < c.remote.maxConcurrentStreams.value
  }

  /** `open_stream`: the id handed out is the old `nextStreamId`; the u32 counter wraps. */
  function OpenStream(c: Conn): Conn {
    c.(nextStreamId := (c.nextStreamId + 2) % 0x1_0000_0000,
       streams := c.streams[c.nextStreamId :=
                              OpenUp(NewStream(c.remote.initialWindowSize, EffectiveLocalWindow(c)))])
  }

  function SendAvailableOn(c: Conn, sid: u32): nat {
    Min(Max(c.sendWindow, 0), if sid in c.streams then SendAvailable(c.streams[sid]) else 0)
  }

  function ConsumeConnSend(c: Conn, amount: nat): Conn {
    c.(sendWindow := c.sendWindow - Min(amount, Max(c.sendWindow, 0)))
  }

  function ConsumeConnRecv(c: Conn, amount: nat): Option<Conn> {
    if c.recvWindow < 0 || c.recvWindow < amount then None
    else Some(c.(recvWindow := c.recvWindow - amount))
  }

  function UpdateConnSend(c: Conn, increment: u32): Option<Conn> {
    var window := c.sendWindow + increment;
    if window > I32_MAX then None else Some(c.(sendWindow := AsI32(window)))
  }

  function UpdateConnRecv(c: Conn, increment: nat): Option<Conn> {
    var window := c.recvWindow + increment;
    if window > I32_MAX then None else Some(c.(recvWindow := AsI32(window)))
  }

  /** The connection windows: spending stops at zero, a receipt is refused exactly when the window is
      short, an increment exactly when it would pass 2^31-1; every accepted step moves its own window
      by its amount and nothing else, and no cast loses a bit. */
  lemma ConnStepsInRange(c: Conn, amount: nat, increment: u32)
    requires 0 <= c.sendWindow <= I32_MAX && 0 <= c.recvWindow <= I32_MAX
    ensures var d := ConsumeConnSend(c, amount);
            d == c.(sendWindow := d.sendWindow) && d.sendWindow == Max(c.sendWindow - amount, 0)
    ensures ConsumeConnRecv(c, amount)
            == if amount <= c.recvWindow then Some(c.(recvWindow := c.recvWindow - amount)) else None
    ensures UpdateConnSend(c, increment)
            == if c.sendWindow + increment <= I32_MAX then Some(c.(sendWindow := c.sendWindow + increment)) else None
    ensures UpdateConnRecv(c, amount)
            == if c.recvWindow + amount <= I32_MAX then Some(c.(recvWindow := c.recvWindow + amount)) else None
  {
  }

  /** `get_stream_mut(id)` followed by an update, when the stream is known. */
  function WithStream(c: Conn, sid: u32, s: Stream): Conn {
    c.(streams := c.streams[sid := s])
  }

  function ResetStream(c: Conn, sid: u32): Conn {
    if sid in c.streams then WithStream(c, sid, Reset(c.streams[sid])) else c
  }

  function EndLocal(c: Conn, sid: u32): Conn {
    if sid in c.streams then WithStream(c, sid, SendEndStream(c.streams[sid])) else c
  }

  /** `cleanup_closed_streams`. */
  function Cleanup(c: Conn): Conn {
    c.(streams := map sid | sid in c.streams && !c.streams[sid].state.Closed? :: c.streams[sid])
  }

  /** `H2ErrorCode::from_u32`. */
  function ErrorCode(code: u32): u32 {
    if code <= 13 then code else 2
  }

  function RecordGoAway(c: Conn, last: u32, code: u32): Conn {
    c.(goawayReceived := true, goawayLastStreamId := Some(last),
       error := if code != 0 then Some(ErrorCode(code)) else c.error)
  }

  /** The ACK path of `apply_remote_settings`. */
  function AckSettings(c: Conn): Conn {
    if c.pendingSettings == [] then c
    else c.(local := c.pendingSettings[0], pendingSettings := c.pendingSettings[1..])
  }

  /** The table with exactly the streams in `done` moved to the new window. */
  function ResizedTable(t: Table, done: set<u32>, size: u32): Table
    requires forall sid :: sid in done && sid in t ==> Resize(t[sid], size).Some?
  {
    map sid | sid in t :: if sid in done then Resize(t[sid], size).value else t[sid]
  }

  predicate ResizedUpTo(c: Conn, remote: H2Settings, done: set<u32>, c': Conn) {
    && done <= c.streams.Keys
    && (forall sid :: sid in done ==> Resize(c.streams[sid], remote.initialWindowSize).Some?)
    && c' == c.(remote := remote, streams := ResizedTable(c.streams, done, remote.initialWindowSize))
  }

  /** The visit moved the streams in `done` and then ended: because all were done, or because it
      met a stream that overflows. */
  ghost predicate VisitEnds(c: Conn, remote: H2Settings, done: set<u32>, c': Conn, ok: bool) {
    && ResizedUpTo(c, remote, done, c')
    && (ok <==> done == c.streams.Keys)
    && (ok || exists sid :: sid in c.streams && Resize(c.streams[sid], remote.initialWindowSize).None?)
  }

  /** `apply_remote_settings` without ACK. The table is visited in hash order and the first stream
      that overflows stops the visit, so a failure may leave any part of the table moved. */
  ghost predicate SettingsApplied(c: Conn, ps: seq<SettingsParameter>, c': Conn, ok: bool) {
    var (remote, all) := ApplyParams(c.remote, ps);
    if !all then !ok && c' == c.(remote := remote)
    else exists done: set<u32> :: VisitEnds(c, remote, done, c', ok)
  }

  predicate AllResize(t: Table, size: u32) {
    forall sid :: sid in t ==> Resize(t[sid], size).Some?
  }

  predicate AllAtSize(t: Table, size: u32) {
    forall sid :: sid in t ==> t[sid].initialWindow == size
  }

  /** Whether SETTINGS is accepted does not depend on the visiting order: it is when every
      parameter is legal and no stream overflows, and then every stream is at the new size. */
  lemma SettingsVerdict(c: Conn, ps: seq<SettingsParameter>, c': Conn, ok: bool)
    requires SettingsApplied(c, ps, c', ok)
    ensures var (remote, all) := ApplyParams(c.remote, ps);
            && (ok <==> all && AllResize(c.streams, remote.initialWindowSize))
            && c'.remote == remote && c'.streams.Keys == c.streams.Keys
            && (ok ==> AllAtSize(c'.streams, remote.initialWindowSize))
  {
    var (remote, all) := ApplyParams(c.remote, ps);
    if all {
      var done: set<u32> :| VisitEnds(c, remote, done, c', ok);
      assert c'.streams.Keys == c.streams.Keys;
    }
  }
}
