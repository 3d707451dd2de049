/** Connection profiles (lkprofile/src/h2.rs): the settings a client announces, in its own order, the
    window update and the PRIORITY frames of its preface. */
module Profiles {
  import opened Wire
  import opened Frames
  import opened Codec

  datatype SettingId =
    | HeaderTableSize | EnablePush | MaxConcurrentStreams | InitialWindowSize | MaxFrameSize
    | MaxHeaderListSize | EnableConnectProtocol | NoRfc7540Priorities | OtherId(raw: u16)

  function ToWire(id: SettingId): u16 {
    match id
    case HeaderTableSize => 1
    case EnablePush => 2
    case MaxConcurrentStreams => 3
    case InitialWindowSize => 4
    case MaxFrameSize => 5
    case MaxHeaderListSize => 6
    case EnableConnectProtocol => 8
    case NoRfc7540Priorities => 9
    case OtherId(raw) => raw
  }

  function FromWire(id: u16): SettingId {
    if id == 1 then HeaderTableSize
    else if id == 2 then EnablePush
    else if id == 3 then MaxConcurrentStreams
    else if id == 4 then InitialWindowSize
    else if id == 5 then MaxFrameSize
    else if id == 6 then MaxHeaderListSize
    else if id == 8 then EnableConnectProtocol
    else if id == 9 then NoRfc7540Priorities
    else OtherId(id)
  }

  predicate Named(id: u16) {
    1 <= id <= 9 && id != 7
  }

  /** Wire ids round trip always; setting ids do unless a named id is spelled as a raw number. */
  lemma WireIds(raw: u16, id: SettingId)
    ensures ToWire(FromWire(raw)) == raw
    ensures FromWire(ToWire(id)) == id <==> !(id.OtherId? && Named(id.raw))
  {
  }

  datatype Setting = Setting(id: SettingId, value: u32)
  datatype PriorityFrame = PriorityFrame(streamId: u32, spec: PrioritySpec)
  datatype Profile = Profile(settings: seq<Setting>, windowUpdate: u32, priorityFrames: seq<PriorityFrame>)

  function Parameters(settings: seq<Setting>): seq<SettingsParameter> {
    if settings == [] then []
    else [SettingsParameter(ToWire(settings[0].id), settings[0].value)] + Parameters(settings[1..])
  }

  /** The value of the first setting spelled with this id, as the constructor looks for its limits. */
  function FirstValue(settings: seq<Setting>, id: SettingId): (r: Option<u32>)
    ensures r.None? <==> forall i :: 0 <= i < |settings| ==> settings[i].id != id
    ensures r.Some? ==> exists i :: 0 <= i < |settings| && settings[i] == Setting(id, r.value)
                                    && forall j :: 0 <= j < i ==> settings[j].id != id
  {
    if settings == [] then None
    else if settings[0].id == id then Some(settings[0].value)
    else
      var r := FirstValue(settings[1..], id);
      assert forall i :: 0 <= i < |settings| - 1 ==> settings[1..][i] == settings[i + 1];
      r
  }
}
