/** One subscriber stream on the publisher: a bounded FIFO outbox with a high/low
    water latch, one write in flight and a one-shot finish. Each function named
    `...Section` is one section run under the reactor's mutex, together with the
    gRPC call (StartWrite, Finish) its thread makes next. */
module Reactor {

  datatype OutboxStatus = Accepted | Backpressured | NotConnected

  datatype FinishStatus = Ok | Cancelled | PermissionDenied

  datatype Limits = Limits(maxFrames: nat, hwm: nat, lwm: nat)

  const SIZE_MODULUS: nat := 0x1_0000_0000_0000_0000

  /** The constructor's frame thresholds. The subtraction is on `size_t`. */
  function MakeLimits(maxFrames: nat, hwmFraction: real, lwmFraction: real): Limits
    requires maxFrames < SIZE_MODULUS && 0.0 <= hwmFraction && 0.0 <= lwmFraction
  {
    var h0: nat := Truncate(hwmFraction, maxFrames);
    var h1: nat := if h0 == 0 then 1 else h0;
    var h2: nat := if h1 >= maxFrames then (maxFrames + SIZE_MODULUS - 1) % SIZE_MODULUS else h1;
    var l0: nat := Truncate(lwmFraction, maxFrames);
    Limits(maxFrames, h2, if l0 >= h2 then h2 / 2 else l0)
  }

  function Truncate(fraction: real, frames: nat): nat
    requires 0.0 <= fraction
  {
    var product := fraction * (frames as real);
    assert product >= 0.0;
    product.Floor
  }

  predicate Coherent(l: Limits) { l.lwm < l.hwm < l.maxFrames }

  /** The guard in the constructor makes the gate coherent exactly for bounds of two
      frames and more, whatever the fractions. */
  lemma LimitsCoherent(maxFrames: nat, hwmFraction: real, lwmFraction: real)
    requires maxFrames < SIZE_MODULUS && 0.0 <= hwmFraction && 0.0 <= lwmFraction
    ensures Coherent(MakeLimits(maxFrames, hwmFraction, lwmFraction)) <==> maxFrames >= 2
  {
    var h0: nat := Truncate(hwmFraction, maxFrames);
    var h1: nat := if h0 == 0 then 1 else h0;
    if maxFrames > 0 && h1 >= maxFrames {
      assert (maxFrames + SIZE_MODULUS - 1) % SIZE_MODULUS == maxFrames - 1;
    }
  }

  /** A bound of one leaves a high-water mark of zero and refuses every frame. (A bound
      of zero, which the configuration rejects, would wrap to no bound at all.) */
  lemma FreshReactorAccepts<F>(maxFrames: nat, hwmFraction: real, lwmFraction: real, frame: F)
    requires maxFrames < SIZE_MODULUS && 0.0 <= hwmFraction && 0.0 <= lwmFraction
    ensures var r := NewReactor(MakeLimits(maxFrames, hwmFraction, lwmFraction));
            EnqueueSection(r, frame).status == Accepted <==> maxFrames != 1
  {
    if maxFrames >= 2 {
      LimitsCoherent(maxFrames, hwmFraction, lwmFraction);
    }
  }

  datatype R<!F> = R(
    outbox: seq<F>, writing: bool, finishPending: bool, finished: bool, cancelled: bool, backpressured: bool,
    limits: Limits,
    started: seq<F>,           // frames handed to StartWrite, in order
    finishes: seq<FinishStatus> // Finish calls, in order
  )

  function NewReactor<F>(limits: Limits): R<F> {
    R([], false, false, false, false, false, limits, [], [])
  }

  predicate IsLive<F>(r: R<F>) { !r.finished && !r.cancelled }

  predicate IsSendable<F>(r: R<F>) { IsLive(r) && !r.backpressured && |r.outbox| < r.limits.hwm }

  datatype EnqueueResult<!F> = EnqueueResult(r: R<F>, status: OutboxStatus, needWrite: bool)

  function EnqueueSection<F>(r: R<F>, frame: F): EnqueueResult<F> {
    if r.finished || r.cancelled then EnqueueResult(r, NotConnected, false)
    else if r.backpressured || |r.outbox| >= r.limits.hwm then
      EnqueueResult(r.(backpressured := true), Backpressured, false)
    else EnqueueResult(r.(outbox := r.outbox + [frame]), Accepted, !r.writing)
  }

  function StartWriteSection<F>(r: R<F>): R<F> {
    if r.finished || r.writing || r.outbox == [] then r
    else r.(outbox := r.outbox[1..], writing := true, started := r.started + [r.outbox[0]])
  }

  datatype ReadFailedResult<!F> = ReadFailedResult(r: R<F>, canFinish: bool, needKick: bool)

  function ReadFailedSection<F>(r: R<F>): ReadFailedResult<F> {
    if r.finished then ReadFailedResult(r, false, false)
    else if r.writing then ReadFailedResult(r.(finishPending := true), false, false)
    else if r.outbox == [] then ReadFailedResult(r, true, false)
    else ReadFailedResult(r.(finishPending := true), false, true)
  }

  datatype Decision<!F> = Decision(r: R<F>, finishNow: bool)

  /** First section of OnWriteDone; `finishNow` concerns the failed write. */
  function WriteDoneSection<F>(r: R<F>, ok: bool): Decision<F> {
    Decision(r.(writing := false), !ok && !r.finished)
  }

  /** Last section of a successful OnWriteDone: low-water resume, drained finish. */
  function DrainCheckSection<F>(r: R<F>): Decision<F> {
    Decision(if r.backpressured && |r.outbox| <= r.limits.lwm then r.(backpressured := false) else r,
             r.finishPending && !r.writing && r.outbox == [])
  }

  function TeardownStatus<F>(r: R<F>): FinishStatus { if r.cancelled then Cancelled else Ok }

  function FinishSection<F>(r: R<F>, status: FinishStatus): R<F> {
    if r.finished then r else r.(finished := true, finishes := r.finishes + [status])
  }

  /** OnCancel does nothing on a finished stream; `supersede` always marks it. */
  function CancelSection<F>(r: R<F>): R<F> { if r.finished then r else Supersede(r) }

  function Supersede<F>(r: R<F>): R<F> { r.(cancelled := true) }

  // The callbacks run without interference: their sections in order.

  function EnqueueCall<F>(r: R<F>, frame: F): R<F> {
    var e := EnqueueSection(r, frame);
    if e.needWrite then StartWriteSection(e.r) else e.r
  }

  function ReadFailedCall<F>(r: R<F>): R<F> {
    var d := ReadFailedSection(r);
    if d.canFinish then FinishSection(d.r, TeardownStatus(d.r))
    else if d.needKick then StartWriteSection(d.r)
    else d.r
  }

  function WriteDoneCall<F>(r: R<F>, ok: bool): R<F> {
    var first := WriteDoneSection(r, ok);
    if !ok then if first.finishNow then FinishSection(first.r, Cancelled) else first.r
    else
      var last := DrainCheckSection(StartWriteSection(first.r));
      if last.finishNow then FinishSection(last.r, TeardownStatus(last.r)) else last.r
  }

  /** The reactor object; gRPC's side is the pair of logs it appends to. */
  class SubscriberReactor<F> {
    var outbox: seq<F>
    var writing: bool
    var finishPending: bool
    var finished: bool
    var cancelled: bool
    var backpressured: bool
    const limits: Limits
    var started: seq<F>
    var finishes: seq<FinishStatus>

    ghost function State(): R<F>
      reads this
    {
      R(outbox, writing, finishPending, finished, cancelled, backpressured, limits, started, finishes)
    }

    constructor (maxFrames: nat, hwmFraction: real, lwmFraction: real)
      requires maxFrames < SIZE_MODULUS && 0.0 <= hwmFraction && 0.0 <= lwmFraction
      ensures State() == NewReactor(MakeLimits(maxFrames, hwmFraction, lwmFraction))
    {
      outbox, writing, finishPending, finished, cancelled, backpressured := [], false, false, false, false, false;
      started, finishes := [], [];
      limits := MakeLimits(maxFrames, hwmFraction, lwmFraction);
    }

    method Enqueue(frame: F) returns (status: OutboxStatus)
      modifies this
      ensures State() == EnqueueCall(old(State()), frame)
      ensures status == EnqueueSection(old(State()), frame).status
    {
      if finished || cancelled {
        return NotConnected;
      }
      if backpressured || |outbox| >= limits.hwm {
        backpressured := true;
        return Backpressured;
      }
      outbox := outbox + [frame];
      var needWrite := !writing;
      if needWrite {
        StartWrite();
      }
      return Accepted;
    }

    method StartWrite()
      modifies this
      ensures State() == StartWriteSection(old(State()))
    {
      if finished || writing || outbox == [] {
        return;
      }
      started := started + [outbox[0]];
      outbox := outbox[1..];
      writing := true;
    }

    method OnReadFailed()
      modifies this
      ensures State() == ReadFailedCall(old(State()))
    {
      if finished {
        return;
      }
      if writing {
        finishPending := true;
      } else if outbox == [] {
        Finish(if cancelled then Cancelled else Ok);
      } else {
        finishPending := true;
        StartWrite();
      }
    }

    method OnWriteDone(ok: bool)
      modifies this
      ensures State() == WriteDoneCall(old(State()), ok)
    {
      writing := false;
      if !ok {
        if !finished {
          Finish(Cancelled);
        }
        return;
      }
      StartWrite();
      if backpressured && |outbox| <= limits.lwm {
        backpressured := false;
      }
      if finishPending && !writing && outbox == [] {
        Finish(if cancelled then Cancelled else Ok);
      }
    }

    method Finish(status: FinishStatus)
      modifies this
      ensures State() == FinishSection(old(State()), status)
    {
      if finished {
        return;
      }
      finished := true;
      finishes := finishes + [status];
    }

    /** OnCancel's own section; its caller evicts the reactor afterwards. */
    method MarkCancelled()
      modifies this
      ensures State() == CancelSection(old(State()))
    {
      if !finished {
        cancelled := true;
      }
    }

    method MarkSuperseded()
      modifies this
      ensures State() == Supersede(old(State()))
    {
      cancelled := true;
    }

    method Sendable() returns (yes: bool)
      ensures yes == IsSendable(State())
    {
      yes := !finished && !cancelled && !backpressured && |outbox| < limits.hwm;
    }

    method Live() returns (yes: bool)
      ensures yes == IsLive(State())
    {
      yes := !finished && !cancelled;
    }
  }
}
