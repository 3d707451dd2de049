/** Write grouping and receive-credit policies (lkh2/src/policy.rs). */
module Policy {
  import opened Wire
  import opened Frames
  import opened Codec

  // ---- Frame grouping ---------------------------------------------------------------------------

  /** `ConfigurableWritePolicy`. */
  datatype WritePolicy = WritePolicy(splitHeaders: bool, splitData: bool)

  predicate Isolated(p: WritePolicy, f: H2Frame) {
    (f.Headers? && p.splitHeaders) || (f.Data? && p.splitData)
  }

  /** A write that carries something, and an isolated frame only on its own. */
  predicate GroupOk(p: WritePolicy, group: seq<H2Frame>) {
    group != [] && (|group| == 1 || forall j :: 0 <= j < |group| ==> !Isolated(p, group[j]))
  }

  function Flatten(groups: seq<seq<H2Frame>>): seq<H2Frame> {
    if groups == [] then [] else Flatten(groups[..|groups| - 1]) + groups[|groups| - 1]
  }

  lemma FlattenPush(groups: seq<seq<H2Frame>>, group: seq<H2Frame>)
    ensures Flatten(groups + [group]) == Flatten(groups) + group
  {
    assert (groups + [group])[..|groups|] == groups;
  }

  /** No two neighbouring writes could have been one. */
  predicate Maximal(p: WritePolicy, groups: seq<seq<H2Frame>>) {
    forall i :: 0 <= i < |groups| - 1 ==> Alone(p, groups[i]) || Alone(p, groups[i + 1])
  }

  predicate Alone(p: WritePolicy, group: seq<H2Frame>) {
    |group| == 1 && Isolated(p, group[0])
  }

  predicate Shaped(p: WritePolicy, groups: seq<seq<H2Frame>>) {
    (forall i :: 0 <= i < |groups| ==> GroupOk(p, groups[i])) && Maximal(p, groups)
  }

  lemma ShapedPush(p: WritePolicy, groups: seq<seq<H2Frame>>, group: seq<H2Frame>)
    requires Shaped(p, groups) && GroupOk(p, group)
    requires groups == [] || Alone(p, groups[|groups| - 1]) || Alone(p, group)
    ensures Shaped(p, groups + [group])
  {
  }

  /** Midway: the groups so far, then the frames waiting to share a write. */
  predicate Grouping(p: WritePolicy, groups: seq<seq<H2Frame>>, current: seq<H2Frame>, frames: seq<H2Frame>) {
    && Flatten(groups) + current == frames
    && Shaped(p, groups) && (groups != [] ==> Alone(p, groups[|groups| - 1]))
    && forall j :: 0 <= j < |current| ==> !Isolated(p, current[j])
  }

  function Closed(groups: seq<seq<H2Frame>>, current: seq<H2Frame>): seq<seq<H2Frame>> {
    if current == [] then groups else groups + [current]
  }

  lemma CloseGroup(p: WritePolicy, groups: seq<seq<H2Frame>>, current: seq<H2Frame>, frames: seq<H2Frame>)
    requires Grouping(p, groups, current, frames)
    ensures Flatten(Closed(groups, current)) == frames && Shaped(p, Closed(groups, current))
  {
    if current != [] {
      FlattenPush(groups, current);
      ShapedPush(p, groups, current);
    } else {
      assert Flatten(groups) + [] == Flatten(groups);
    }
  }

  lemma AddIsolated(p: WritePolicy, groups: seq<seq<H2Frame>>, current: seq<H2Frame>, frames: seq<H2Frame>, f: H2Frame)
    requires Grouping(p, groups, current, frames) && Isolated(p, f)
    ensures Grouping(p, Closed(groups, current) + [[f]], [], frames + [f])
  {
    CloseGroup(p, groups, current, frames);
    FlattenPush(Closed(groups, current), [f]);
    ShapedPush(p, Closed(groups, current), [f]);
    assert (frames + [f]) + [] == frames + [f];
  }

  lemma AddOther(p: WritePolicy, groups: seq<seq<H2Frame>>, current: seq<H2Frame>, frames: seq<H2Frame>, f: H2Frame)
    requires Grouping(p, groups, current, frames) && !Isolated(p, f)
    ensures Grouping(p, groups, current + [f], frames + [f])
  {
    Assoc(Flatten(groups), current, [f]);
  }

  /** `group_frames`: nothing is lost, reordered or left in an empty write; a frame kind that is to be
      isolated is alone in its write; and consecutive other frames share one. */
  method GroupFrames(p: WritePolicy, frames: seq<H2Frame>) returns (groups: seq<seq<H2Frame>>)
    ensures Flatten(groups) == frames
    ensures Shaped(p, groups)
  {
    groups := [];
    if frames == [] {
      return;
    }
    if !p.splitHeaders && !p.splitData {
      FlattenPush([], frames);
      return [frames];
    }
    var current: seq<H2Frame> := [];
    for k := 0 to |frames|
      invariant Grouping(p, groups, current, frames[..k])
    {
      assert frames[..k + 1] == frames[..k] + [frames[k]];
      if Isolated(p, frames[k]) {
        AddIsolated(p, groups, current, frames[..k], frames[k]);
        if current != [] {
          groups := groups + [current];
          current := [];
        }
        groups := groups + [[frames[k]]];
      } else {
        AddOther(p, groups, current, frames[..k], frames[k]);
        current := current + [frames[k]];
      }
    }
    CloseGroup(p, groups, current, frames[..|frames|]);
    assert frames[..|frames|] == frames;
    if current != [] {
      groups := groups + [current];
    }
  }

  // ---- Receive credit ---------------------------------------------------------------------------

  /** `ImmediateFlowControl`, or `ThresholdFlowControl` with its threshold as a function of the
      initial window. */
  datatype FlowPolicy = Immediate | Threshold(limit: u32 -> nat)

  function Clamp(ratio: real): (r: real)
    ensures 0.1 <= r <= 1.0 && (0.1 <= ratio <= 1.0 ==> r == ratio)
  {
    if ratio < 0.1 then 0.1 else if ratio > 1.0 then 1.0 else ratio
  }

  /** How arithmetic rounds; single precision is much closer than this. */
  type Rounding = real -> real

  ghost predicate Rounds(round: Rounding) {
    forall x: real :: x >= 0.0 ==> 0.9 * x <= round(x) <= 1.1 * x
  }

  /** The threshold for a window: converted, multiplied and cut off, with a rounding at each step. */
  function Share(n: nat, r: real, round: Rounding): (t: nat)
    requires 0.1 <= r <= 1.0 && Rounds(round)
    ensures n >= 16 ==> t >= 1
    ensures r <= 0.8 ==> t <= n
  {
    var x := n as real;
    var y := round(x);
    ShareBounds(x, y, r);
    assert 0.9 * x <= y <= 1.1 * x && 0.9 * (y * r) <= round(y * r) <= 1.1 * (y * r);
    round(y * r).Floor
  }

  lemma ShareBounds(x: real, y: real, r: real)
    requires x >= 0.0 && 0.1 <= r <= 1.0 && 0.9 * x <= y <= 1.1 * x
    ensures 0.09 * x <= y * r && (r <= 0.8 ==> y * r <= 0.88 * x)
  {
    assert y * 0.1 <= y * r;
    if r <= 0.8 {
      assert y * r <= y * 0.8;
    }
  }

  /** `ThresholdFlowControl::new` clamps the ratio. However the arithmetic rounds, the threshold of a
      window of sixteen or more is positive; up to a ratio of 0.8, which the presets keep well
      below, it does not exceed the window. */
  function RatioPolicy(ratio: real, round: Rounding): (p: FlowPolicy)
    requires Rounds(round)
    ensures p.Threshold? && forall n: u32 :: n >= 16 ==> p.limit(n) >= 1
    ensures ratio <= 0.8 ==> forall n: u32 :: p.limit(n) <= n
  {
    Threshold((n: u32) => Share(n, Clamp(ratio), round))
  }

  /** At ratio one, rounding up may lift the threshold above the window: single precision turns the
      largest window, 2^31-1, into 2^31. */
  lemma FullRatioMayExceed(round: Rounding)
    requires Rounds(round) && round(2147483647.0) == 2147483648.0 && round(2147483648.0) == 2147483648.0
    ensures RatioPolicy(1.0, round).limit(0x7FFF_FFFF) == 0x8000_0000
  {
  }

  type Accumulated = map<u32, nat>

  function Held(acc: Accumulated, sid: u32): nat {
    if sid in acc then acc[sid] else 0
  }

  /** `on_data_received`: bytes held back, and the increment to announce, if any. */
  function OnDataReceived(p: FlowPolicy, acc: Accumulated, sid: u32, len: nat, initial: u32)
    : (Accumulated, Option<nat>)
  {
    if len == 0 then (acc, None)
    else if p.Immediate? then (acc, Some(len))
    else
      var held := Held(acc, sid) + len;
      if held >= p.limit(initial) then (acc[sid := 0], Some(held)) else (acc[sid := held], None)
  }

  function OnStreamClosed(p: FlowPolicy, acc: Accumulated, sid: u32): Accumulated {
    if p.Immediate? then acc else acc - {sid}
  }

  /** Received bytes are never lost by the policy: they are announced or still held. */
  lemma PolicyConserves(p: FlowPolicy, acc: Accumulated, sid: u32, len: nat, initial: u32)
    requires p.Immediate? ==> Held(acc, sid) == 0
    ensures var (acc', inc) := OnDataReceived(p, acc, sid, len, initial);
            && Held(acc', sid) + (if inc.Some? then inc.value else 0) == Held(acc, sid) + len
            && (inc.Some? ==> Held(acc', sid) == 0 && inc.value >= 1)
            && (inc.None? && len > 0 ==> p.Threshold? && Held(acc', sid) < p.limit(initial))
            && forall other :: other != sid ==> Held(acc', other) == Held(acc, other)
  {
  }
}
