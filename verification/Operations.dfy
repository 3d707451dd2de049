/** The result of an asynchronous operation (lkrequest-ffi/src/op.rs): a worker completes it, the caller
    polls, cancels, takes and frees it, each under the operation's lock and so in some order. */
module Operations {
  import opened Wire

  datatype Kind = ResponseKind | StreamingKind | ChunkKind | ProxyGuardKind | PoolGuardKind | ProbeReportKind

  /** A payload that can be handed over; `id` tells payloads apart. */
  datatype Success = Success(kind: Kind, id: nat)

  datatype OpResult =
    | InProgress
    | CompletedOk(payload: Option<Success>)
    | CompletedErr(error: Option<nat>)
    | Cancelled
    | Consumed

  /** How the worker ends: with a payload, with none, as a preconnect does, or with an error. */
  datatype Outcome = Ok(value: Success) | Empty | Err(code: nat)

  datatype Handed = Payload(value: Success) | Error(code: nat)

  datatype Status = Done | Busy | InvalidArgument

  /** `cleanup` while the hook has not run; `freed` once the handle is gone. `handed` and `cleanups`
      record what left the operation and how often the hook ran. */
  datatype Op = Op(result: OpResult, cleanup: bool, freed: bool, handed: seq<Handed>, cleanups: nat)

  const NEW_OP: Op := Op(InProgress, false, false, [], 0)

  function ResultOf(o: Outcome): OpResult {
    match o
    case Ok(value) => CompletedOk(Some(value))
    case Empty => CompletedOk(None)
    case Err(code) => CompletedErr(Some(code))
  }

  /** The completer of a request or a preconnect: only an operation still in progress is completed. */
  function Complete(op: Op, o: Outcome): Op {
    if op.result.InProgress? then op.(result := ResultOf(o)) else op
  }

  /** The completer of the SOCKS5 probe, which does not look. A cancel or a free also aborts the worker,
      so this meets a cancelled operation only when the worker is past its last await. */
  function Overwrite(op: Op, o: Outcome): Op {
    op.(result := ResultOf(o))
  }

  function RunCleanup(op: Op): Op {
    if op.cleanup then op.(cleanup := false, cleanups := op.cleanups + 1) else op
  }

  /** `lk_op_cancel`. */
  function Cancel(op: Op): (Op, Status) {
    if op.result.Consumed? then (op, InvalidArgument)
    else if op.result.InProgress? then (RunCleanup(op.(result := Cancelled)), Done)
    else (op, Done)
  }

  /** `lk_op_take_response` and its siblings for the other kinds. */
  function Take(op: Op, kind: Kind): (Op, Option<Success>, Status) {
    match op.result
    case CompletedOk(Some(value)) =>
      if value.kind == kind then (op.(result := Consumed, handed := op.handed + [Payload(value)]), Some(value), Done)
      else (op, None, InvalidArgument)
    case CompletedOk(None) => (op.(result := Consumed), None, InvalidArgument)
    case InProgress => (op, None, Busy)
    case _ => (op, None, InvalidArgument)
  }

  /** `lk_op_take_error`. */
  function TakeError(op: Op): (Op, Option<nat>, Status) {
    match op.result
    case CompletedErr(Some(code)) => (op.(result := Consumed, handed := op.handed + [Error(code)]), Some(code), Done)
    case CompletedErr(None) => (op.(result := Consumed), None, InvalidArgument)
    case InProgress => (op, None, Busy)
    case _ => (op, None, InvalidArgument)
  }

  /** `lk_op_free`, through `OpHandle::drop`; the result stays with the worker. */
  function Free(op: Op): Op {
    (if op.result.InProgress? then RunCleanup(op) else op).(freed := true)
  }

  // ---- The object ---------------------------------------------------------------------------------

  /** The shared state and handle, changed in place. */
  class OpObject {
    var result: OpResult
    var cleanup: bool
    ghost var freed: bool
    ghost var handed: seq<Handed>
    ghost var cleanups: nat

    constructor (hook: bool)
      ensures State() == NEW_OP.(cleanup := hook)
    {
      result, cleanup, freed, handed, cleanups := InProgress, hook, false, [], 0;
    }

    ghost function State(): Op
      reads this
    {
      Op(result, cleanup, freed, handed, cleanups)
    }

    method CompleteWith(o: Outcome)
      modifies this
      ensures State() == Complete(old(State()), o)
    {
      if result.InProgress? {
        result := ResultOf(o);
      }
    }

    method RunHook()
      modifies this
      ensures State() == RunCleanup(old(State()))
    {
      if cleanup {
        cleanup, cleanups := false, cleanups + 1;
      }
    }

    method CancelOp() returns (status: Status)
      modifies this
      ensures (State(), status) == Cancel(old(State()))
      ensures status == (if old(result).Consumed? then InvalidArgument else Done)
      ensures result == if old(result).InProgress? then Cancelled else old(result)
    {
      if result.Consumed? {
        return InvalidArgument;
      }
      if result.InProgress? {
        result := Cancelled;
        RunHook();
      }
      return Done;
    }

    /** The source swaps in `Consumed` first and puts back what it may not take. */
    method TakeKind(kind: Kind) returns (out: Option<Success>, status: Status)
      modifies this
      ensures (State(), out, status) == Take(old(State()), kind)
      ensures (out.Some? <==> status == Done) && (status == Busy <==> old(result).InProgress?)
      ensures out.Some? ==> out.value.kind == kind && old(result) == CompletedOk(out) && result == Consumed
      ensures out.None? && old(result) != CompletedOk(None) ==> State() == old(State())
    {
      var was := result;
      result := Consumed;
      match was
      case CompletedOk(Some(value)) =>
        if value.kind == kind {
          handed := handed + [Payload(value)];
          return Some(value), Done;
        }
        result := was;
        return None, InvalidArgument;
      case CompletedOk(None) => return None, InvalidArgument;
      case InProgress =>
        result := was;
        return None, Busy;
      case CompletedErr(_) =>
        result := was;
        return None, InvalidArgument;
      case Cancelled =>
        result := was;
        return None, InvalidArgument;
      case Consumed => return None, InvalidArgument;
    }

    method TakeErr() returns (out: Option<nat>, status: Status)
      modifies this
      ensures (State(), out, status) == TakeError(old(State()))
      ensures (out.Some? <==> status == Done) && (status == Busy <==> old(result).InProgress?)
      ensures out.Some? ==> old(result) == CompletedErr(out) && result == Consumed
      ensures out.None? && old(result) != CompletedErr(None) ==> State() == old(State())
    {
      var was := result;
      result := Consumed;
      match was
      case CompletedErr(Some(code)) =>
        handed := handed + [Error(code)];
        return Some(code), Done;
      case CompletedErr(None) => return None, InvalidArgument;
      case InProgress =>
        result := was;
        return None, Busy;
      case CompletedOk(_) =>
        result := was;
        return None, InvalidArgument;
      case Cancelled =>
        result := was;
        return None, InvalidArgument;
      case Consumed => return None, InvalidArgument;
    }

    method FreeOp()
      modifies this
      ensures State() == Free(old(State()))
    {
      if result.InProgress? {
        RunHook();
      }
      freed := true;
    }
  }

  // ---- Runs ---------------------------------------------------------------------------------------

  datatype Action = Finish(outcome: Outcome) | DoCancel | DoTake(kind: Kind) | DoTakeError | DoFree

  /** A step of the worker or of the caller, who acts only while the handle lives. That an abort may
      keep the worker from finishing at all is a run without the step. */
  predicate Step(guarded: bool, op: Op, a: Action, op': Op) {
    match a
    case Finish(o) => op' == if guarded then Complete(op, o) else Overwrite(op, o)
    case DoCancel => !op.freed && op' == Cancel(op).0
    case DoTake(kind) => !op.freed && op' == Take(op, kind).0
    case DoTakeError => !op.freed && op' == TakeError(op).0
    case DoFree => !op.freed && op' == Free(op)
  }

  ghost predicate Run(guarded: bool, hook: bool, ops: seq<Op>, acts: seq<Action>) {
    && |ops| == |acts| + 1 && ops[0] == NEW_OP.(cleanup := hook)
    && forall i :: 0 <= i < |acts| ==> Step(guarded, ops[i], acts[i], ops[i + 1])
  }

  /** In progress, then one outcome, then consumed. */
  predicate Advances(a: OpResult, b: OpResult) {
    a == b || a.InProgress? || ((a.CompletedOk? || a.CompletedErr?) && b.Consumed?)
  }

  function ResultHanded(h: Handed): OpResult {
    match h
    case Payload(value) => CompletedOk(Some(value))
    case Error(code) => CompletedErr(Some(code))
  }

  /** At most one thing has been handed out, and only from a result that is now consumed; the hook has
      run at most once, and not before a cancel or a free. */
  predicate OpInv(op: Op, hook: bool) {
    && |op.handed| <= 1 && (op.handed != [] ==> op.result.Consumed?)
    && op.cleanups + (if op.cleanup then 1 else 0) == (if hook then 1 else 0)
    && (!op.result.Cancelled? && !op.freed ==> op.cleanups == 0)
  }

  /** What a single step may do, guarded. */
  lemma StepKeeps(op: Op, a: Action, op': Op, hook: bool)
    requires OpInv(op, hook) && Step(true, op, a, op')
    ensures OpInv(op', hook) && Advances(op.result, op'.result)
    ensures op'.cleanups > op.cleanups ==> op.result.InProgress? && !op.freed
    ensures op'.handed == op.handed
            || (op.handed == [] && |op'.handed| == 1 && op.result == ResultHanded(op'.handed[0]))
    ensures a.DoTake? && op.result.CompletedOk? && op.result.payload.Some? && op.result.payload.value.kind != a.kind ==>
              op' == op
  {
  }

  lemma {:induction false} RunKeeps(hook: bool, ops: seq<Op>, acts: seq<Action>, i: nat)
    requires Run(true, hook, ops, acts) && i < |ops|
    ensures OpInv(ops[i], hook)
  {
    if i > 0 {
      RunKeeps(hook, ops, acts, i - 1);
      StepKeeps(ops[i - 1], acts[i - 1], ops[i], hook);
    }
  }

  /** In every interleaving the result only moves from in progress to one outcome to consumed. */
  lemma {:induction false} ResultIsSingleAssignment(hook: bool, ops: seq<Op>, acts: seq<Action>, i: nat, j: nat)
    requires Run(true, hook, ops, acts) && i <= j < |ops|
    ensures Advances(ops[i].result, ops[j].result)
  {
    if i < j {
      ResultIsSingleAssignment(hook, ops, acts, i, j - 1);
      RunKeeps(hook, ops, acts, j - 1);
      StepKeeps(ops[j - 1], acts[j - 1], ops[j], hook);
    }
  }

  predicate WasResult(ops: seq<Op>, j: nat, r: OpResult)
    requires j < |ops|
  {
    exists i :: 0 <= i <= j && ops[i].result == r
  }

  /** The payload leaves at most once, it is the one the operation completed with, and the first matching
      take has it. */
  lemma {:induction false} PayloadLeavesOnce(hook: bool, ops: seq<Op>, acts: seq<Action>, j: nat)
    requires Run(true, hook, ops, acts) && j < |ops|
    ensures |ops[j].handed| <= 1
    ensures ops[j].handed != [] ==> WasResult(ops, j, ResultHanded(ops[j].handed[0]))
    ensures forall value :: j < |acts| && ops[j].result == CompletedOk(Some(value)) && acts[j] == DoTake(value.kind) ==>
              ops[j + 1].handed == [Payload(value)]
    ensures forall code :: j < |acts| && ops[j].result == CompletedErr(Some(code)) && acts[j] == DoTakeError ==>
              ops[j + 1].handed == [Error(code)]
  {
    RunKeeps(hook, ops, acts, j);
    assert j < |acts| ==> Step(true, ops[j], acts[j], ops[j + 1]);
    if j > 0 {
      PayloadLeavesOnce(hook, ops, acts, j - 1);
      RunKeeps(hook, ops, acts, j - 1);
      StepKeeps(ops[j - 1], acts[j - 1], ops[j], hook);
    }
  }

  /** The cleanup hook runs at most once, and exactly when an operation that is still in progress is
      cancelled or freed. */
  lemma CleanupOnce(hook: bool, ops: seq<Op>, acts: seq<Action>, j: nat)
    requires Run(true, hook, ops, acts) && j < |acts|
    ensures ops[j + 1].cleanups <= 1
    ensures ops[j + 1].cleanups > ops[j].cleanups
            <==> hook && ops[j].result.InProgress? && (acts[j].DoCancel? || acts[j].DoFree?)
  {
    RunKeeps(hook, ops, acts, j);
    StepKeeps(ops[j], acts[j], ops[j + 1], hook);
  }

  // ---- The unguarded completer --------------------------------------------------------------------

  predicate CancelledBefore(acts: seq<Action>, i: nat)
    requires i <= |acts|
  {
    exists k :: 0 <= k < i && acts[k].DoCancel?
  }

  lemma {:induction false} BeforeFinish(guarded: bool, hook: bool, ops: seq<Op>, acts: seq<Action>, i: nat)
    requires Run(guarded, hook, ops, acts) && i < |ops|
    requires forall k :: 0 <= k < i ==> !acts[k].Finish?
    ensures ops[i].result == if CancelledBefore(acts, i) then Cancelled else InProgress
  {
    if i > 0 {
      BeforeFinish(guarded, hook, ops, acts, i - 1);
      assert Step(guarded, ops[i - 1], acts[i - 1], ops[i]);
    }
  }

  /** The probe's completer keeps single assignment exactly when no cancel came before it: after a
      cancel it turns a cancelled operation into a completed one. */
  lemma ProbeSingleAssignmentIff(hook: bool, ops: seq<Op>, acts: seq<Action>, i: nat)
    requires Run(false, hook, ops, acts) && i < |acts| && acts[i].Finish?
    requires forall k :: 0 <= k < i ==> !acts[k].Finish?
    ensures Advances(ops[i].result, ops[i + 1].result) <==> !CancelledBefore(acts, i)
  {
    BeforeFinish(false, hook, ops, acts, i);
    assert Step(false, ops[i], acts[i], ops[i + 1]);
  }

  /** For instance: cancel succeeds, the probe then finishes, and its report can still be taken. */
  lemma CancelledProbeDelivers(id: nat)
    ensures var report := Success(ProbeReportKind, id);
            var (cancelled, status) := Cancel(NEW_OP);
            var (taken, out, _) := Take(Overwrite(cancelled, Ok(report)), ProbeReportKind);
            status == Done && cancelled.result == Cancelled && out == Some(report)
            && Take(Complete(cancelled, Ok(report)), ProbeReportKind).1 == None
  {
  }
}
