/** `ConnState` as the mutable object of lkh2/src/conn_state.rs, each method proved against the
    function of `Connection` it carries out. The streams are values held by the table, as the
    source's hash map owns them. */
module ConnObject {
  import opened Wire
  import opened Frames
  import opened Codec
  import opened Streams
  import opened Connection

  /** The visit with `todo` still to come. */
  predicate Visiting(c: Conn, remote: H2Settings, todo: set<u32>, c': Conn) {
    todo <= c.streams.Keys && ResizedUpTo(c, remote, c.streams.Keys - todo, c')
  }

  lemma VisitStep(c: Conn, remote: H2Settings, todo: set<u32>, c': Conn, sid: u32)
    requires Visiting(c, remote, todo, c') && sid in todo
    ensures c'.streams.Keys == c.streams.Keys && c'.streams[sid] == c.streams[sid]
    ensures var moved := Resize(c.streams[sid], remote.initialWindowSize);
            if moved.None? then VisitEnds(c, remote, c.streams.Keys - todo, c', false)
            else Visiting(c, remote, todo - {sid}, WithStream(c', sid, moved.value))
  {
    var size := remote.initialWindowSize;
    var done := c.streams.Keys - todo;
    if Resize(c.streams[sid], size).Some? {
      assert c.streams.Keys - (todo - {sid}) == done + {sid};
      assert ResizedTable(c.streams, done, size)[sid := Resize(c.streams[sid], size).value]
          == ResizedTable(c.streams, done + {sid}, size);
    }
  }

  /** The visit only reads the table, so what the settings were before does not matter. */
  lemma VisitFrom(c: Conn, updated: Conn, c': Conn, ok: bool)
    requires updated == c.(remote := updated.remote)
    requires exists done: set<u32> :: VisitEnds(updated, updated.remote, done, c', ok)
    ensures exists done: set<u32> :: VisitEnds(c, updated.remote, done, c', ok)
  {
    var done: set<u32> :| VisitEnds(updated, updated.remote, done, c', ok);
    assert VisitEnds(c, updated.remote, done, c', ok);
  }

  /** Opening a stream adds at most one to the active ones. */
  lemma OpenAddsOne(c: Conn)
    ensures |ActiveStreams(OpenStream(c).streams)| <= |ActiveStreams(c.streams)| + 1
  {
    var before, after := ActiveStreams(c.streams), ActiveStreams(OpenStream(c).streams);
    assert after == before + {c.nextStreamId};
  }

  class ConnState {
    var localSettings: H2Settings
    var remoteSettings: H2Settings
    var pendingSettings: seq<H2Settings>
    var streams: Table
    var nextStreamId: u32
    var sendWindow: int
    var recvWindow: int
    var error: Option<u32>
    var goawayReceived: bool
    var goawayLastStreamId: Option<u32>

    ghost function State(): Conn
      reads this
    {
      Conn(localSettings, remoteSettings, pendingSettings, streams, nextStreamId, sendWindow, recvWindow,
           error, goawayReceived, goawayLastStreamId)
    }

    /** `client`, then the profile's SETTINGS and WINDOW_UPDATE. */
    constructor (profile: seq<SettingsParameter>, windowUpdate: u32)
      ensures State() == ClientConn(profile, windowUpdate)
    {
      localSettings, remoteSettings := DEFAULT_SETTINGS.(enablePush := false), DEFAULT_SETTINGS;
      pendingSettings, streams, nextStreamId := [], map[], 1;
      sendWindow, recvWindow := DEFAULT_INITIAL_WINDOW, DEFAULT_INITIAL_WINDOW;
      error, goawayReceived, goawayLastStreamId := None, false, None;
      new;
      ApplyProfileSettings(profile);
      if windowUpdate > 0 {
        var _ := UpdateRecvWindow(windowUpdate);
      }
    }

    method ApplyProfileSettings(profile: seq<SettingsParameter>)
      modifies this
      ensures State() == old(State()).(pendingSettings := old(pendingSettings) + [ApplyProfile(localSettings, profile)])
      ensures SetBy(localSettings, profile, pendingSettings[|pendingSettings| - 1])
    {
      ProfileSets(localSettings, profile);
      var next := localSettings;
      var i := 0;
      while i < |profile|
        invariant 0 <= i <= |profile|
        invariant ApplyProfile(next, profile[i..]) == ApplyProfile(localSettings, profile)
        invariant State() == old(State())
      {
        var applied := ApplyParam(next, profile[i]);
        if applied.Some? {
          next := applied.value;
        }
        i := i + 1;
      }
      pendingSettings := pendingSettings + [next];
    }

    /** `can_open_stream`. */
    method CanOpen() returns (ok: bool)
      ensures ok <==> CanOpenStream(State())
      ensures ok && remoteSettings.maxConcurrentStreams.Some? ==>
                |ActiveStreams(OpenStream(State()).streams)| <= remoteSettings.maxConcurrentStreams.value
    {
      OpenAddsOne(State());
      if remoteSettings.maxConcurrentStreams.None? {
        return true;
      }
      ok := |ActiveStreams(streams)| < remoteSettings.maxConcurrentStreams.value;
    }

    method OpenNew() returns (sid: u32)
      modifies this
      ensures sid == old(nextStreamId) && State() == OpenStream(old(State()))
    {
      var effective := localSettings;
      if pendingSettings != [] {
        effective := pendingSettings[|pendingSettings| - 1];
      }
      sid := nextStreamId;
      nextStreamId := (nextStreamId + 2) % 0x1_0000_0000;
      streams := streams[sid := OpenUp(NewStream(remoteSettings.initialWindowSize, effective.initialWindowSize))];
    }

    method ConsumeSendWindow(amount: nat)
      modifies `sendWindow
      ensures State() == ConsumeConnSend(old(State()), amount)
      ensures old(sendWindow) >= 0 ==> sendWindow == Max(old(sendWindow) - amount, 0)
    {
      sendWindow := sendWindow - Min(amount, Max(sendWindow, 0));
    }

    method ConsumeRecvWindow(amount: nat) returns (ok: bool)
      modifies `recvWindow
      ensures ok <==> ConsumeConnRecv(old(State()), amount).Some?
      ensures State() == if ok then ConsumeConnRecv(old(State()), amount).value else old(State())
      ensures old(recvWindow) >= 0 ==> (ok <==> amount <= old(recvWindow)) && recvWindow >= 0
    {
      ok := recvWindow >= 0 && recvWindow >= amount;
      if ok {
        recvWindow := recvWindow - amount;
      }
    }

    method UpdateSendWindow(increment: u32) returns (ok: bool)
      modifies `sendWindow
      ensures ok <==> UpdateConnSend(old(State()), increment).Some?
      ensures State() == if ok then UpdateConnSend(old(State()), increment).value else old(State())
      ensures old(sendWindow) >= 0 ==> sendWindow == old(sendWindow) + (if ok then increment else 0)
    {
      var window := sendWindow + increment;
      ok := window <= I32_MAX;
      if ok {
        sendWindow := AsI32(window);
      }
    }

    method UpdateRecvWindow(increment: nat) returns (ok: bool)
      modifies `recvWindow
      ensures ok <==> UpdateConnRecv(old(State()), increment).Some?
      ensures State() == if ok then UpdateConnRecv(old(State()), increment).value else old(State())
      ensures old(recvWindow) >= 0 ==> recvWindow == old(recvWindow) + (if ok then increment else 0)
    {
      var window := recvWindow + increment;
      ok := window <= I32_MAX;
      if ok {
        recvWindow := AsI32(window);
      }
    }

    method Acknowledge()
      modifies this
      ensures State() == AckSettings(old(State()))
    {
      if pendingSettings != [] {
        localSettings := pendingSettings[0];
        pendingSettings := pendingSettings[1..];
      }
    }

    /** The parameter loop of `apply_remote_settings`. */
    method ApplyParameters(ps: seq<SettingsParameter>) returns (ok: bool)
      modifies `remoteSettings
      ensures (remoteSettings, ok) == ApplyParams(old(remoteSettings), ps)
      ensures ok <==> forall i :: 0 <= i < |ps| ==> Legal(ps[i])
      ensures SetBy(old(remoteSettings), ps[..LegalCount(ps)], remoteSettings)
    {
      ParamsSet(remoteSettings, ps);
      var i := 0;
      while i < |ps|
        invariant 0 <= i <= |ps|
        invariant ApplyParams(remoteSettings, ps[i..]) == ApplyParams(old(remoteSettings), ps)
      {
        var applied := ApplyParam(remoteSettings, ps[i]);
        if applied.None? {
          return false;
        }
        remoteSettings := applied.value;
        i := i + 1;
      }
      return true;
    }

    /** The stream loop: any order, up to the first stream that overflows. */
    method ResizeStreams() returns (ok: bool)
      modifies `streams
      ensures exists done: set<u32> :: VisitEnds(old(State()), remoteSettings, done, State(), ok)
    {
      var todo := streams.Keys;
      ghost var before := State();
      assert ResizedTable(streams, {}, remoteSettings.initialWindowSize) == streams;
      assert streams.Keys - streams.Keys == {};
      while todo != {}
        invariant Visiting(before, remoteSettings, todo, State())
        decreases |todo|
      {
        var sid :| sid in todo;
        VisitStep(before, remoteSettings, todo, State(), sid);
        var moved := Resize(streams[sid], remoteSettings.initialWindowSize);
        if moved.None? {
          return false;
        }
        streams := streams[sid := moved.value];
        todo := todo - {sid};
      }
      assert VisitEnds(before, remoteSettings, before.streams.Keys, State(), true);
      return true;
    }

    /** `apply_remote_settings` without ACK. */
    method ApplyRemoteSettings(ps: seq<SettingsParameter>) returns (ok: bool)
      modifies this
      ensures SettingsApplied(old(State()), ps, State(), ok)
      ensures SetBy(old(remoteSettings), ps[..LegalCount(ps)], remoteSettings)
      ensures ok ==> SetBy(old(remoteSettings), ps, remoteSettings)
    {
      assert ps[..|ps|] == ps;
      ok := ApplyParameters(ps);
      if ok {
        ghost var updated := State();
        ok := ResizeStreams();
        VisitFrom(old(State()), updated, State(), ok);
      }
    }

    method HandleGoAway(last: u32, code: u32)
      modifies this
      ensures State() == RecordGoAway(old(State()), last, code)
    {
      goawayReceived, goawayLastStreamId := true, Some(last);
      if code != 0 {
        error := Some(ErrorCode(code));
      }
    }

    method CleanupClosed()
      modifies `streams
      ensures State() == Cleanup(old(State()))
    {
      streams := map sid | sid in streams && !streams[sid].state.Closed? :: streams[sid];
    }

    /** `get_stream_mut` followed by `reset`, by `send_end_stream`. */
    method ResetIfKnown(sid: u32)
      modifies `streams
      ensures State() == ResetStream(old(State()), sid)
    {
      if sid in streams {
        streams := streams[sid := Reset(streams[sid])];
      }
    }

    method EndLocalSide(sid: u32)
      modifies `streams
      ensures State() == EndLocal(old(State()), sid)
    {
      if sid in streams {
        streams := streams[sid := SendEndStream(streams[sid])];
      }
    }
  }
}
