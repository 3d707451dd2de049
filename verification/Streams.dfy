/** One HTTP/2 stream: its state and its two flow-control windows (lkh2/src/stream.rs). A stream is
    a value owned by the connection's table; a `None` result is the error path, which leaves it as
    it was. */
module Streams {
  import opened Wire

  datatype StreamState =
    | Idle | ReservedLocal | ReservedRemote | Open | HalfClosedLocal | HalfClosedRemote | Closed
  {
    predicate CanSend() {
      Open? || HalfClosedRemote?
    }

    predicate CanReceive() {
      Open? || HalfClosedLocal?
    }

    predicate IsActive() {
      !Idle? && !Closed?
    }
  }

  datatype Stream = Stream(state: StreamState, sendWindow: int, recvWindow: int, initialWindow: u32)

  function NewStream(sendInitial: u32, recvInitial: u32): Stream {
    Stream(Idle, AsI32(sendInitial), AsI32(recvInitial), sendInitial)
  }

  function OpenUp(s: Stream): Stream {
    if s.state.Idle? || s.state.ReservedLocal? || s.state.ReservedRemote? then s.(state := Open) else s
  }

  function SendEndStream(s: Stream): Stream {
    if s.state.Open? then s.(state := HalfClosedLocal)
    else if s.state.HalfClosedRemote? then s.(state := Closed)
    else s
  }

  function RecvEndStream(s: Stream): Stream {
    if s.state.Open? then s.(state := HalfClosedRemote)
    else if s.state.HalfClosedLocal? then s.(state := Closed)
    else s
  }

  function Reset(s: Stream): Stream {
    s.(state := Closed)
  }

  function SendAvailable(s: Stream): nat {
    Max(s.sendWindow, 0)
  }

  /** `consume_send_window`: takes what is available, up to `amount`. */
  function ConsumeSend(s: Stream, amount: nat): Stream {
    s.(sendWindow := s.sendWindow - Min(amount, SendAvailable(s)))
  }

  function ConsumeRecv(s: Stream, amount: nat): Option<Stream> {
    if s.recvWindow < 0 || s.recvWindow < amount then None
    else Some(s.(recvWindow := s.recvWindow - amount))
  }

  function UpdateSend(s: Stream, increment: u32): Option<Stream> {
    var window := s.sendWindow + increment;
    if window > I32_MAX then None else Some(s.(sendWindow := AsI32(window)))
  }

  function UpdateRecv(s: Stream, increment: nat): Option<Stream> {
    var window := s.recvWindow + increment;
    if window > I32_MAX then None else Some(s.(recvWindow := AsI32(window)))
  }

  /** `apply_initial_window_size`: a new peer setting moves the window by the difference. */
  function Resize(s: Stream, newSize: u32): Option<Stream> {
    var window := s.sendWindow + (newSize - s.initialWindow);
    if window > I32_MAX then None
    else Some(s.(sendWindow := AsI32(window), initialWindow := newSize))
  }

  /** The part of the send window that does not come from the peer's setting. */
  function Balance(s: Stream): int {
    s.sendWindow - s.initialWindow
  }

  /** What keeps every `as i32` cast exact. The balance bound is the inductive part: the window may
      be driven negative by a smaller setting, but the balance never falls below -(2^31-1). */
  predicate InRange(s: Stream) {
    && s.initialWindow <= I32_MAX
    && s.sendWindow <= I32_MAX
    && Balance(s) >= -I32_MAX
    && 0 <= s.recvWindow <= I32_MAX
  }

  /** No operation leaves the range, no cast loses a bit, and each moves the balance by exactly the
      bytes or the credit it stands for; a new setting does not move it at all. */
  lemma StreamStepsInRange(s: Stream, amount: nat, increment: u32, newSize: u32)
    requires InRange(s)
    ensures amount <= SendAvailable(s) ==>
              InRange(ConsumeSend(s, amount)) && Balance(ConsumeSend(s, amount)) == Balance(s) - amount
    ensures UpdateSend(s, increment).Some? ==>
              var t := UpdateSend(s, increment).value;
              InRange(t) && Balance(t) == Balance(s) + increment && t.initialWindow == s.initialWindow
    ensures newSize <= I32_MAX && Resize(s, newSize).Some? ==>
              var t := Resize(s, newSize).value;
              InRange(t) && Balance(t) == Balance(s) && t.initialWindow == newSize
    ensures ConsumeRecv(s, amount).Some? ==> InRange(ConsumeRecv(s, amount).value)
    ensures UpdateRecv(s, amount).Some? ==> InRange(UpdateRecv(s, amount).value)
  {
  }

  /** Section 6.9.2 of RFC 7540: after any sequence of accepted sizes the window is the one the
      last size alone would have given. */
  lemma {:induction false} ResizeForgets(s: Stream, sizes: seq<u32>, last: u32)
    requires InRange(s) && last <= I32_MAX
    requires forall i :: 0 <= i < |sizes| ==> sizes[i] <= I32_MAX
    requires ResizeAll(s, sizes).Some? && Resize(ResizeAll(s, sizes).value, last).Some?
    ensures Resize(s, last).Some?
    ensures Resize(ResizeAll(s, sizes).value, last) == Resize(s, last)
  {
    ResizeAllBalance(s, sizes);
  }

  function ResizeAll(s: Stream, sizes: seq<u32>): Option<Stream>
    decreases |sizes|
  {
    if sizes == [] then Some(s)
    else
      match Resize(s, sizes[0])
      case None => None
      case Some(t) => ResizeAll(t, sizes[1..])
  }

  lemma {:induction false} ResizeAllBalance(s: Stream, sizes: seq<u32>)
    requires InRange(s)
    requires forall i :: 0 <= i < |sizes| ==> sizes[i] <= I32_MAX
    requires ResizeAll(s, sizes).Some?
    ensures var t := ResizeAll(s, sizes).value;
            InRange(t) && Balance(t) == Balance(s) && t.state == s.state && t.recvWindow == s.recvWindow
    decreases |sizes|
  {
    if sizes != [] {
      StreamStepsInRange(s, 0, 0, sizes[0]);
      ResizeAllBalance(Resize(s, sizes[0]).value, sizes[1..]);
    }
  }
}
