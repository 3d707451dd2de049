/** Randomized profiles (lkh2/src/synthesis.rs): the validity check, the shuffles and the perturbed
    values, for every stream of random numbers. */
module Synthesis {
  import opened Wire
  import opened Frames
  import opened Profiles
  import opened Shuffle

  datatype PseudoHeader = Method | Authority | Scheme | Path

  /** A profile with its pseudo-header order. */
  datatype Spec = Spec(pseudo: seq<PseudoHeader>, profile: Profile)

  datatype InvalidSpec =
    | PseudoHeaderOrderInvalid | DuplicateSetting(id: u16) | MaxFrameSizeOutOfRange(value: u32)
    | InitialWindowTooLarge(value: u32) | EnablePushNotBoolean(value: u32) | WindowUpdateTooLarge(value: u32)

  const DEFAULT_CONN_WINDOW: nat := 65535
  const MAX_WINDOW: nat := 0x7FFF_FFFF

  // ---- Validity -----------------------------------------------------------------------------------

  function ValueFault(s: Setting): Option<InvalidSpec> {
    var id := ToWire(s.id);
    if id == 2 && s.value > 1 then Some(EnablePushNotBoolean(s.value))
    else if id == 4 && s.value > MAX_WINDOW then Some(InitialWindowTooLarge(s.value))
    else if id == 5 && !(16384 <= s.value <= 16_777_215) then Some(MaxFrameSizeOutOfRange(s.value))
    else None
  }

  /** The first fault of a list of settings after the ids in `seen`. */
  function SettingsFault(settings: seq<Setting>, seen: set<u16>): Option<InvalidSpec> {
    if settings == [] then None
    else
      var id := ToWire(settings[0].id);
      if id in seen then Some(DuplicateSetting(id))
      else if ValueFault(settings[0]).Some? then ValueFault(settings[0])
      else SettingsFault(settings[1..], seen + {id})
  }

  predicate OnceEach(pseudo: seq<PseudoHeader>) {
    multiset(pseudo) == multiset{Method, Authority, Scheme, Path}
  }

  /** `validate`: the fault reported, if any. */
  function Verdict(s: Spec): Option<InvalidSpec> {
    if !OnceEach(s.pseudo) then Some(PseudoHeaderOrderInvalid)
    else if SettingsFault(s.profile.settings, {}).Some? then SettingsFault(s.profile.settings, {})
    else if s.profile.windowUpdate > MAX_WINDOW - DEFAULT_CONN_WINDOW then Some(WindowUpdateTooLarge(s.profile.windowUpdate))
    else None
  }

  predicate ValidSettings(settings: seq<Setting>) {
    && (forall i, j :: 0 <= i < j < |settings| ==> ToWire(settings[i].id) != ToWire(settings[j].id))
    && (forall i :: 0 <= i < |settings| ==> ValueFault(settings[i]).None?)
  }

  predicate ValidSpec(s: Spec) {
    && OnceEach(s.pseudo) && ValidSettings(s.profile.settings)
    && DEFAULT_CONN_WINDOW + s.profile.windowUpdate <= MAX_WINDOW
  }

  lemma {:induction false} SettingsFaultIff(settings: seq<Setting>, seen: set<u16>)
    ensures SettingsFault(settings, seen).None?
            <==> ValidSettings(settings) && forall i :: 0 <= i < |settings| ==> ToWire(settings[i].id) !in seen
    decreases |settings|
  {
    if settings != [] {
      var id, tail := ToWire(settings[0].id), settings[1..];
      SettingsFaultIff(tail, seen + {id});
      assert forall i :: 0 <= i < |tail| ==> tail[i] == settings[i + 1];
      if ValidSettings(tail) && ValueFault(settings[0]).None? && (forall i :: 0 <= i < |tail| ==> ToWire(tail[i].id) != id) {
        ValidCons(settings);
      }
    }
  }

  lemma ValidCons(settings: seq<Setting>)
    requires settings != [] && ValidSettings(settings[1..]) && ValueFault(settings[0]).None?
    requires forall i :: 0 <= i < |settings| - 1 ==> ToWire(settings[1..][i].id) != ToWire(settings[0].id)
    ensures ValidSettings(settings)
  {
    forall i, j | 0 <= i < j < |settings|
      ensures ToWire(settings[i].id) != ToWire(settings[j].id)
    {
      assert settings[j] == settings[1..][j - 1];
      if i > 0 {
        assert settings[i] == settings[1..][i - 1];
      }
    }
    forall i | 0 <= i < |settings|
      ensures ValueFault(settings[i]).None?
    {
      if i > 0 {
        assert settings[i] == settings[1..][i - 1];
      }
    }
  }

  /** `validate` accepts exactly the valid specifications. */
  lemma VerdictIff(s: Spec)
    ensures Verdict(s).None? <==> ValidSpec(s)
  {
    SettingsFaultIff(s.profile.settings, {});
  }

  /** The loops of `validate`, with its four counters and its set of ids. */
  method Validate(s: Spec) returns (r: Option<InvalidSpec>)
    ensures r == Verdict(s)
    ensures r.None? <==> ValidSpec(s)
  {
    VerdictIff(s);
    var once := CountPseudo(s.pseudo);
    if !once {
      return Some(PseudoHeaderOrderInvalid);
    }
    var fault := CheckSettings(s.profile.settings);
    if fault.Some? {
      return fault;
    }
    if s.profile.windowUpdate > MAX_WINDOW - DEFAULT_CONN_WINDOW {
      return Some(WindowUpdateTooLarge(s.profile.windowUpdate));
    }
    return None;
  }

  lemma OnceEachIff(pseudo: multiset<PseudoHeader>)
    ensures pseudo == multiset{Method, Authority, Scheme, Path}
            <==> pseudo[Method] == 1 && pseudo[Authority] == 1 && pseudo[Scheme] == 1 && pseudo[Path] == 1
  {
    if pseudo[Method] == 1 && pseudo[Authority] == 1 && pseudo[Scheme] == 1 && pseudo[Path] == 1 {
      forall x: PseudoHeader
        ensures pseudo[x] == multiset{Method, Authority, Scheme, Path}[x]
      {
        match x case Method => case Authority => case Scheme => case Path =>
      }
    }
  }

  method CountPseudo(pseudo: seq<PseudoHeader>) returns (once: bool)
    ensures once <==> OnceEach(pseudo)
  {
    var m, a, s, p := 0, 0, 0, 0;
    for i := 0 to |pseudo|
      invariant multiset(pseudo[..i])[Method] == m && multiset(pseudo[..i])[Authority] == a
      invariant multiset(pseudo[..i])[Scheme] == s && multiset(pseudo[..i])[Path] == p
    {
      assert pseudo[..i + 1] == pseudo[..i] + [pseudo[i]];
      match pseudo[i]
      case Method => m := m + 1;
      case Authority => a := a + 1;
      case Scheme => s := s + 1;
      case Path => p := p + 1;
    }
    assert pseudo[..|pseudo|] == pseudo;
    OnceEachIff(multiset(pseudo));
    once := m == 1 && a == 1 && s == 1 && p == 1;
  }

  method CheckSettings(settings: seq<Setting>) returns (fault: Option<InvalidSpec>)
    ensures fault == SettingsFault(settings, {})
  {
    var seen: set<u16> := {};
    assert settings[0..] == settings;
    for i := 0 to |settings|
      invariant SettingsFault(settings[i..], seen) == SettingsFault(settings, {})
    {
      var id := ToWire(settings[i].id);
      assert settings[i..][1..] == settings[i + 1..];
      if id in seen {
        return Some(DuplicateSetting(id));
      }
      fault := ValueFault(settings[i]);
      if fault.Some? {
        return;
      }
      seen := seen + {id};
    }
    fault := None;
  }

  // ---- Order does not matter ----------------------------------------------------------------------

  lemma SwapKeepsValid(v: seq<Setting>, i: nat, j: nat)
    requires i < |v| && j < |v| && ValidSettings(v)
    ensures ValidSettings(Swap(v, i, j))
  {
  }

  lemma {:induction false} ShuffleKeepsValid(v: seq<Setting>, js: seq<nat>, i: nat)
    requires Choices(js, |v|) && i < |v| && ValidSettings(v)
    ensures ValidSettings(ShuffleFrom(v, js, i))
    decreases i
  {
    if i > 0 {
      SwapKeepsValid(v, i, js[i]);
      ShuffleKeepsValid(Swap(v, i, js[i]), js, i - 1);
    }
  }

  /** `validate` does not depend on the order of settings or of pseudo-headers. */
  lemma VerdictIgnoresOrder(s: Spec, t: Spec)
    requires multiset(s.pseudo) == multiset(t.pseudo)
    requires multiset(s.profile.settings) == multiset(t.profile.settings)
    requires s.profile.windowUpdate == t.profile.windowUpdate
    ensures Verdict(s).None? <==> Verdict(t).None?
  {
    VerdictIff(s);
    VerdictIff(t);
    if ValidSpec(s) {
      OrderIgnored(s.profile.settings, t.profile.settings);
    }
    if ValidSpec(t) {
      OrderIgnored(t.profile.settings, s.profile.settings);
    }
  }

  lemma OrderIgnored(v: seq<Setting>, w: seq<Setting>)
    requires multiset(v) == multiset(w) && ValidSettings(v)
    ensures ValidSettings(w)
  {
    var js := ShuffleSurjective(v, w);
    if v != [] {
      ShuffleKeepsValid(v, js, |v| - 1);
    }
  }

  // ---- Random numbers -----------------------------------------------------------------------------

  type Stream = nat -> nat

  /** A source of numbers: any stream, read one after the other. */
  class Rng {
    const stream: Stream
    var drawn: nat

    constructor (s: Stream)
      ensures stream == s && drawn == 0
    {
      stream, drawn := s, 0;
    }

    method Next() returns (x: nat)
      modifies this
      ensures x == stream(old(drawn)) && drawn == old(drawn) + 1
    {
      x := stream(drawn);
      drawn := drawn + 1;
    }
  }

  /** The choices a shuffle of `n` elements draws from position `at`, for n-1 down to 1. */
  function Draws(s: Stream, at: nat, n: nat): (js: seq<nat>)
    ensures Choices(js, n)
  {
    seq(n, i requires 0 <= i < n => s(at + (n - 1 - i)) % (i + 1))
  }

  function DrawCount(n: nat): nat {
    if n == 0 then 0 else n - 1
  }

  method SwapAt<T>(v: array<T>, i: nat, j: nat)
    requires i < v.Length && j < v.Length
    modifies v
    ensures v[..] == Swap(old(v[..]), i, j)
  {
    v[i], v[j] := v[j], v[i];
  }

  /** One turn of the shuffle's loop. */
  method ShuffleTurn<T>(rng: Rng, v: array<T>, i: nat, ghost js: seq<nat>)
    requires 0 < i < v.Length && Choices(js, v.Length) && js[i] == rng.stream(rng.drawn) % (i + 1)
    modifies rng, v
    ensures ShuffleFrom(v[..], js, i - 1) == ShuffleFrom(old(v[..]), js, i)
    ensures rng.drawn == old(rng.drawn) + 1
  {
    var x := rng.Next();
    SwapAt(v, i, x % (i + 1));
  }

  ghost predicate DrawnFrom(js: seq<nat>, s: Stream, at: nat) {
    forall i :: 0 <= i < |js| ==> js[i] == s(at + (|js| - 1 - i)) % (i + 1)
  }

  /** `shuffle`, in place. */
  method ShuffleInPlace<T>(rng: Rng, v: array<T>)
    modifies rng, v
    ensures v[..] == Shuffled(old(v[..]), Draws(rng.stream, old(rng.drawn), v.Length))
    ensures rng.drawn == old(rng.drawn) + DrawCount(v.Length)
  {
    if v.Length == 0 {
      return;
    }
    ShuffleAll(rng, v, Draws(rng.stream, rng.drawn, v.Length));
  }

  method ShuffleAll<T>(rng: Rng, v: array<T>, ghost js: seq<nat>)
    requires v.Length > 0 && Choices(js, v.Length) && DrawnFrom(js, rng.stream, rng.drawn)
    modifies rng, v
    ensures v[..] == ShuffleFrom(old(v[..]), js, v.Length - 1)
    ensures rng.drawn == old(rng.drawn) + (v.Length - 1)
  {
    var i := v.Length - 1;
    while i > 0
      invariant 0 <= i < v.Length
      invariant rng.drawn == old(rng.drawn) + (v.Length - 1 - i)
      invariant ShuffleFrom(v[..], js, i) == ShuffleFrom(old(v[..]), js, v.Length - 1)
    {
      ShuffleTurn(rng, v, i, js);
      i := i - 1;
    }
  }

  /** Every order the generator may produce, and no other, for some stream. */
  lemma DrawsReachAll(js: seq<nat>, n: nat, at: nat)
    requires Choices(js, n)
    ensures exists s: Stream :: Draws(s, at, n) == js
  {
    var s: Stream := (k: nat) => if at <= k < at + n then js[n - 1 - (k - at)] else 0;
    forall i | 0 <= i < n
      ensures Draws(s, at, n)[i] == js[i]
    {
      assert s(at + (n - 1 - i)) == js[i];
    }
    assert Draws(s, at, n) == js;
  }

  // ---- Synthesis ----------------------------------------------------------------------------------

  function ShuffledSpec(base: Spec, s: Stream, at: nat): Spec {
    var n := |base.pseudo|;
    var later := at + DrawCount(n);
    Spec(Shuffled(base.pseudo, Draws(s, at, n)),
         base.profile.(settings := Shuffled(base.profile.settings, Draws(s, later, |base.profile.settings|))))
  }

  lemma ShuffledIsPermutation<T>(v: seq<T>, js: seq<nat>)
    requires Choices(js, |v|)
    ensures multiset(Shuffled(v, js)) == multiset(v)
  {
    if v != [] {
      ShufflePermutes(v, js, |v| - 1);
    }
  }

  /** Whatever is drawn, a shuffled specification is as valid as its base. */
  lemma ShuffledStaysValid(base: Spec, s: Stream, at: nat)
    ensures Verdict(ShuffledSpec(base, s, at)).None? <==> Verdict(base).None?
  {
    var n := |base.pseudo|;
    ShuffledIsPermutation(base.pseudo, Draws(s, at, n));
    ShuffledIsPermutation(base.profile.settings, Draws(s, at + DrawCount(n), |base.profile.settings|));
    VerdictIgnoresOrder(ShuffledSpec(base, s, at), base);
  }

  method ToArray<T>(v: seq<T>) returns (a: array<T>)
    ensures fresh(a) && a[..] == v
  {
    a := new T[|v|](i requires 0 <= i < |v| => v[i]);
  }

  /** `synthesize`: a base chosen and shuffled; valid bases give valid results. */
  method Synthesize(rng: Rng, bases: seq<Spec>) returns (p: Spec)
    requires bases != []
    modifies rng
    ensures p == ShuffledSpec(bases[rng.stream(old(rng.drawn)) % |bases|], rng.stream, old(rng.drawn) + 1)
    ensures (forall i :: 0 <= i < |bases| ==> Verdict(bases[i]).None?) ==> Verdict(p).None?
  {
    var x := rng.Next();
    var base := bases[x % |bases|];
    var pseudo := ToArray(base.pseudo);
    ShuffleInPlace(rng, pseudo);
    var settings := ToArray(base.profile.settings);
    ShuffleInPlace(rng, settings);
    p := Spec(pseudo[..], base.profile.(settings := settings[..]));
    ShuffledStaysValid(base, rng.stream, old(rng.drawn) + 1);
  }

  /** `rand_u32`: inclusive bounds. */
  function RandIn(x: nat, lo: u32, hi: u32): (v: u32)
    requires lo <= hi
    ensures lo <= v <= hi
  {
    lo + x % (hi - lo + 1)
  }

  /** The range a setting is redrawn from, or nothing if it keeps its value. */
  function Range(id: u16): (r: Option<(u32, u32)>)
    ensures r.Some? ==> r.value.0 <= r.value.1
  {
    if id == 1 then Some((0, 65_536))
    else if id == 3 then Some((64, 1_024))
    else if id == 4 then Some((65_535, 16_777_216))
    else if id == 5 then Some((16_384, 65_536))
    else if id == 6 then Some((16_384, 262_144))
    else None
  }

  /** `t` is `s` with redrawn values: same ids in the same order, redrawn values in range. */
  predicate Perturbed(s: seq<Setting>, t: seq<Setting>) {
    && |t| == |s|
    && forall i :: 0 <= i < |s| ==>
         && t[i].id == s[i].id
         && var range := Range(ToWire(s[i].id));
            if range.Some? then range.value.0 <= t[i].value <= range.value.1 else t[i].value == s[i].value
  }

  /** The ranges lie within what `validate` allows. */
  lemma PerturbedStaysValid(s: seq<Setting>, t: seq<Setting>)
    requires ValidSettings(s) && Perturbed(s, t)
    ensures ValidSettings(t)
  {
    forall i | 0 <= i < |t|
      ensures ValueFault(t[i]).None?
    {
      assert ValueFault(s[i]).None?;
    }
  }

  /** The settings with values redrawn, the first from position `at`. */
  function Redrawn(settings: seq<Setting>, s: Stream, at: nat): seq<Setting> {
    if settings == [] then []
    else
      var first, range := settings[0], Range(ToWire(settings[0].id));
      if range.None? then [first] + Redrawn(settings[1..], s, at)
      else [first.(value := RandIn(s(at), range.value.0, range.value.1))] + Redrawn(settings[1..], s, at + 1)
  }

  lemma {:induction false} RedrawnIsPerturbed(settings: seq<Setting>, s: Stream, at: nat)
    ensures Perturbed(settings, Redrawn(settings, s, at))
  {
    if settings != [] {
      RedrawnIsPerturbed(settings[1..], s, if Range(ToWire(settings[0].id)).Some? then at + 1 else at);
    }
  }

  /** Every value within its bounds can be drawn. */
  lemma RandReachesAll(lo: u32, hi: u32, v: u32)
    requires lo <= v <= hi
    ensures RandIn(v - lo, lo, hi) == v
  {
  }

  /** Exactly the settings with same ids and values in range can be drawn, for some stream. */
  lemma {:induction false} RedrawsReachAll(settings: seq<Setting>, t: seq<Setting>, at: nat)
    requires Perturbed(settings, t)
    ensures exists s: Stream :: Redrawn(settings, s, at) == t
  {
    if settings == [] {
      var s: Stream := _ => 0;
      assert Redrawn(settings, s, at) == t;
    } else {
      var range := Range(ToWire(settings[0].id));
      var next := if range.Some? then at + 1 else at;
      assert Perturbed(settings[1..], t[1..]);
      RedrawsReachAll(settings[1..], t[1..], next);
      var later: Stream :| Redrawn(settings[1..], later, next) == t[1..];
      if range.None? {
        assert Redrawn(settings, later, at) == t;
      } else {
        var s: Stream := (k: nat) => if k == at then t[0].value - range.value.0 else later(k);
        RandReachesAll(range.value.0, range.value.1, t[0].value);
        SameStream(settings[1..], s, later, next);
        assert Redrawn(settings, s, at) == [t[0]] + t[1..];
      }
    }
  }

  lemma {:induction false} SameStream(settings: seq<Setting>, s: Stream, s': Stream, at: nat)
    requires forall k: nat :: k >= at ==> s(k) == s'(k)
    ensures Redrawn(settings, s, at) == Redrawn(settings, s', at)
  {
    if settings != [] {
      SameStream(settings[1..], s, s', if Range(ToWire(settings[0].id)).Some? then at + 1 else at);
    }
  }

  /** What the loop makes of one setting. */
  function RedrawOne(s: Setting, x: nat): Setting {
    var range := Range(ToWire(s.id));
    if range.None? then s else s.(value := RandIn(x, range.value.0, range.value.1))
  }

  lemma RedrawStep(done: seq<Setting>, todo: seq<Setting>, s: Stream, at: nat)
    requires todo != []
    ensures var next := if Range(ToWire(todo[0].id)).Some? then at + 1 else at;
            (done + [RedrawOne(todo[0], s(at))]) + Redrawn(todo[1..], s, next) == done + Redrawn(todo, s, at)
  {
    Assoc(done, [RedrawOne(todo[0], s(at))],
          Redrawn(todo[1..], s, if Range(ToWire(todo[0].id)).Some? then at + 1 else at));
  }

  method RedrawAt(rng: Rng, settings: array<Setting>, i: nat)
    requires i < settings.Length
    modifies rng, settings
    ensures settings[..] == old(settings[..])[i := RedrawOne(old(settings[i]), rng.stream(old(rng.drawn)))]
    ensures rng.drawn == old(rng.drawn) + if Range(ToWire(old(settings[i]).id)).Some? then 1 else 0
  {
    var s := settings[i];
    var range := Range(ToWire(s.id));
    if range.Some? {
      var x := rng.Next();
      settings[i] := s.(value := RandIn(x, range.value.0, range.value.1));
    }
  }

  lemma TakeDone<T>(v: seq<T>, w: seq<T>, i: nat, x: T)
    requires i < |v| && w == v[i := x]
    ensures w[..i + 1] == v[..i] + [x] && w[i + 1..] == v[i + 1..] == v[i..][1..]
  {
  }

  method Perturb(rng: Rng, settings: array<Setting>)
    modifies rng, settings
    ensures settings[..] == Redrawn(old(settings[..]), rng.stream, old(rng.drawn))
    ensures Perturbed(old(settings[..]), settings[..])
  {
    ghost var goal := Redrawn(settings[..], rng.stream, rng.drawn);
    assert settings[..] == settings[0..];
    for i := 0 to settings.Length
      invariant settings[..i] + Redrawn(settings[i..], rng.stream, rng.drawn) == goal
    {
      RedrawStep(settings[..i], settings[i..], rng.stream, rng.drawn);
      ghost var v, x := settings[..], RedrawOne(settings[i], rng.stream(rng.drawn));
      RedrawAt(rng, settings, i);
      TakeDone(v, settings[..], i, x);
    }
    assert settings[..settings.Length] == settings[..];
    RedrawnIsPerturbed(old(settings[..]), rng.stream, old(rng.drawn));
  }

  /** `synthesize_full`: shuffled as before, values redrawn; valid bases give valid results. */
  method SynthesizeFull(rng: Rng, bases: seq<Spec>) returns (p: Spec, ghost plain: Spec)
    requires bases != []
    modifies rng
    ensures plain == ShuffledSpec(bases[rng.stream(old(rng.drawn)) % |bases|], rng.stream, old(rng.drawn) + 1)
    ensures p == plain.(profile := plain.profile.(settings := p.profile.settings))
    ensures Perturbed(plain.profile.settings, p.profile.settings)
    ensures (forall i :: 0 <= i < |bases| ==> Verdict(bases[i]).None?) ==> Verdict(p).None?
  {
    p := Synthesize(rng, bases);
    plain := p;
    var settings := ToArray(p.profile.settings);
    Perturb(rng, settings);
    p := p.(profile := p.profile.(settings := settings[..]));
    VerdictIff(plain);
    VerdictIff(p);
    if Verdict(plain).None? {
      PerturbedStaysValid(plain.profile.settings, p.profile.settings);
    }
  }
}
