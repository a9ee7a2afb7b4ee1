/** What one stream promises the publisher, in terms of its fields: when the latch is set
    and released, that a half-close is remembered and ends in a Finish, and that a
    cancelled stream takes nothing more. Over every interleaving of its threads. */
module StreamPromises {
  import opened Reactor
  import opened ReactorProtocol

  // ------------------------------------------------------------------ the limits

  function Share(fraction: real, frames: nat): real { fraction * (frames as real) }

  /** The high-water mark is the fraction of the bound, rounded down and kept between 1 and
      one below the bound; the low-water mark is its own fraction, rounded down, or half
      the high-water mark where that would not lie below it. */
  lemma LimitsExact(maxFrames: nat, hwmFraction: real, lwmFraction: real)
    requires 2 <= maxFrames < SIZE_MODULUS && 0.0 <= hwmFraction && 0.0 <= lwmFraction
    ensures var l := MakeLimits(maxFrames, hwmFraction, lwmFraction);
            var high, low := Share(hwmFraction, maxFrames), Share(lwmFraction, maxFrames);
            && l.maxFrames == maxFrames
            && (high < 1.0 ==> l.hwm == 1)
            && (high >= maxFrames as real ==> l.hwm == maxFrames - 1)
            && (1.0 <= high < maxFrames as real ==> l.hwm as real <= high < l.hwm as real + 1.0)
            && (low < l.hwm as real ==> l.lwm as real <= low < l.lwm as real + 1.0)
            && (l.hwm as real <= low ==> 2 * l.lwm <= l.hwm <= 2 * l.lwm + 1)
  {
    hide Truncate, MakeLimits, Share;
    TruncateIs(hwmFraction, maxFrames);
    TruncateIs(lwmFraction, maxFrames);
    Clamped(maxFrames, hwmFraction, lwmFraction);
    MarksOf(Share(hwmFraction, maxFrames), Share(lwmFraction, maxFrames),
            Truncate(hwmFraction, maxFrames), Truncate(lwmFraction, maxFrames),
            maxFrames, MakeLimits(maxFrames, hwmFraction, lwmFraction));
  }

  lemma TruncateIs(fraction: real, frames: nat)
    requires 0.0 <= fraction
    ensures var product := Share(fraction, frames); var t := Truncate(fraction, frames) as real;
            t <= product < t + 1.0
  {
    assert fraction * (frames as real) >= 0.0;
  }

  lemma MarksOf(high: real, low: real, h: nat, w: nat, maxFrames: nat, l: Limits)
    requires h as real <= high < h as real + 1.0 && w as real <= low < w as real + 1.0 && maxFrames >= 2
    requires l.hwm == (if h == 0 then 1 else if h >= maxFrames then maxFrames - 1 else h)
    requires l.lwm == (if w < l.hwm then w else l.hwm / 2)
    ensures high < 1.0 ==> l.hwm == 1
    ensures high >= maxFrames as real ==> l.hwm == maxFrames - 1
    ensures 1.0 <= high < maxFrames as real ==> l.hwm as real <= high < l.hwm as real + 1.0
    ensures low < l.hwm as real ==> l.lwm as real <= low < l.lwm as real + 1.0
    ensures l.hwm as real <= low ==> 2 * l.lwm <= l.hwm <= 2 * l.lwm + 1
  {
    FloorAgainst(high, h, maxFrames);
    FloorAgainst(high, h, 1);
    FloorAgainst(low, w, l.hwm);
  }

  lemma FloorAgainst(x: real, floor: nat, n: nat)
    requires floor as real <= x < floor as real + 1.0
    ensures x < n as real <==> floor < n
  {
  }

  /** The constructor's guards on the rounded values. */
  lemma Clamped(maxFrames: nat, hwmFraction: real, lwmFraction: real)
    requires 2 <= maxFrames < SIZE_MODULUS && 0.0 <= hwmFraction && 0.0 <= lwmFraction
    ensures var l := MakeLimits(maxFrames, hwmFraction, lwmFraction);
            var h, low := Truncate(hwmFraction, maxFrames), Truncate(lwmFraction, maxFrames);
            && l.maxFrames == maxFrames
            && l.hwm == (if h == 0 then 1 else if h >= maxFrames then maxFrames - 1 else h)
            && l.lwm == (if low < l.hwm then low else l.hwm / 2)
  {
    hide Truncate;
    assert (maxFrames + SIZE_MODULUS - 1) % SIZE_MODULUS == maxFrames - 1;
  }

  // ------------------------------------------------------------------- the latch

  /** A stream that is live refuses a push exactly when it is latched or at its high-water
      mark, and is latched afterwards; a dead one answers that it is not connected. */
  lemma PushAnswers<F>(s: Sys<F>, f: F)
    ensures var answer, s' := EnqueueSection(s.r, f).status, Next(s, Push(f));
            && (answer == Accepted <==> !s.r.finished && !s.r.cancelled && !s.r.backpressured
                                        && |s.r.outbox| < s.r.limits.hwm)
            && (answer == NotConnected <==> s.r.finished || s.r.cancelled)
            && (answer == Accepted ==> s'.accepted == s.accepted + [f] && s'.r.outbox == s.r.outbox + [f])
            && (answer != Accepted ==> s'.accepted == s.accepted && s'.r.outbox == s.r.outbox)
            && (answer == Backpressured ==> s'.r.backpressured)
  {
  }

  /** The latch is set by a refusal at the high-water mark and by nothing else. */
  lemma LatchSetIff<F>(s: Sys<F>, a: Action<F>)
    requires Enabled(s, a) && !s.r.backpressured
    ensures Next(s, a).r.backpressured
        <==> a.Push? && !s.r.finished && !s.r.cancelled && |s.r.outbox| >= s.r.limits.hwm
  {
  }

  /** It is released by the handler of a completion that finds the outbox at or below the
      low-water mark, and by nothing else. */
  lemma LatchReleasedIff<F>(s: Sys<F>, a: Action<F>)
    requires Enabled(s, a) && s.r.backpressured
    ensures !Next(s, a).r.backpressured <==> a.Check? && |s.r.outbox| <= s.r.limits.lwm
  {
  }

  /** In every state of the run the outbox is above the low-water mark. */
  predicate StaysAbove<F>(s: Sys<F>, acts: seq<Action<F>>)
    requires CanExec(s, acts)
    decreases |acts|
  {
    |s.r.outbox| > s.r.limits.lwm && (acts != [] ==> StaysAbove(Next(s, acts[0]), acts[1..]))
  }

  lemma LimitsStay<F>(s: Sys<F>, a: Action<F>)
    requires Enabled(s, a)
    ensures Next(s, a).r.limits == s.r.limits
  {
  }

  /** Hysteresis: from a refusal on nothing is accepted until the outbox has been at or below
      the low-water mark. */
  lemma {:induction false} NothingAcceptedAbove<F>(s: Sys<F>, acts: seq<Action<F>>)
    requires s.r.backpressured && CanExec(s, acts) && StaysAbove(s, acts)
    ensures Exec(s, acts).accepted == s.accepted && Exec(s, acts).r.backpressured
    decreases |acts|
  {
    hide Next, Enabled;
    if acts != [] {
      LatchReleasedIff(s, acts[0]);
      LatchedAccepts(s, acts[0]);
      NothingAcceptedAbove(Next(s, acts[0]), acts[1..]);
    }
  }

  lemma LatchedAccepts<F>(s: Sys<F>, a: Action<F>)
    requires Enabled(s, a) && s.r.backpressured
    ensures Next(s, a).accepted == s.accepted
  {
  }

  // ------------------------------------------------------------------ cancellation

  /** A cancel or a supersession marks an unfinished stream, touches neither its outbox nor its
      writes and issues no Finish. */
  lemma CancelMarks<F>(s: Sys<F>, a: Action<F>)
    requires a in {Cancel, SupersedeIt} && !s.r.finished
    ensures Next(s, a) == s.(r := s.r.(cancelled := true))
  {
  }

  predicate Dead<F>(s: Sys<F>) { s.r.finished || s.r.cancelled }

  /** From then on nothing is accepted, whatever happens. */
  lemma CancelStops<F>(s: Sys<F>, a: Action<F>, acts: seq<Action<F>>)
    requires a in {Cancel, SupersedeIt} && CanExec(Next(s, a), acts)
    ensures Dead(Next(s, a)) && Exec(Next(s, a), acts).accepted == s.accepted
  {
    assert Dead(Next(s, a)) && Next(s, a).accepted == s.accepted;
    hide Next, Enabled;
    DeadStays(Next(s, a), acts);
  }

  lemma DeadStep<F>(s: Sys<F>, a: Action<F>)
    requires Enabled(s, a) && Dead(s)
    ensures Dead(Next(s, a)) && Next(s, a).accepted == s.accepted
  {
  }

  lemma {:induction false} DeadStays<F>(s: Sys<F>, acts: seq<Action<F>>)
    requires CanExec(s, acts) && Dead(s)
    ensures Dead(Exec(s, acts)) && Exec(s, acts).accepted == s.accepted
    decreases |acts|
  {
    hide Next, Enabled, Dead;
    if acts != [] {
      DeadStep(s, acts[0]);
      DeadStays(Next(s, acts[0]), acts[1..]);
    }
  }

  // ------------------------------------------------------------------- half-close

  /** A failed read on an unfinished stream is remembered or decided upon, and decided upon
      at once exactly when no write is in flight and nothing is queued. */
  lemma ReadFailMeans<F>(s: Sys<F>)
    requires !s.r.finished
    ensures var s' := Next(s, ReadFail);
            && (s'.r.finishPending || s'.decisions == s.decisions + 1)
            && (s'.decisions > s.decisions <==> !s.r.writing && s.r.outbox == [])
            && (s'.decisions > s.decisions ==> Decided in s'.finishers)
            && s'.accepted == s.accepted && s'.done == s.done && s'.failures == s.failures
            && s'.r.outbox == s.r.outbox && s'.r.writing == s.r.writing && s'.r.finished == s.r.finished
  {
  }

  /** From the failed read itself, which comes once: with no further accept and no failed
      write, a drained finish is decided upon only when every frame accepted before it is
      written and completed, and has been once the last of these completions is handled. */
  lemma HalfCloseFromReadFail<F>(s: Sys<F>, acts: seq<Action<F>>)
    requires Inv(s) && !s.r.finished && s.decisions == 0 && CanExec(Next(s, ReadFail), acts)
    requires var e := Exec(Next(s, ReadFail), acts);
             e.accepted == s.accepted && e.failures == 0 && !e.r.finished
    ensures var e := Exec(Next(s, ReadFail), acts);
            && e.done <= |s.accepted|
            && (e.decisions > 0 ==> e.done == |s.accepted|)
            && (e.done == |s.accepted| && !LastPending(e) ==> e.decisions > 0)
  {
    var s' := Next(s, ReadFail);
    ReadFailMeans(s);
    InvStep(s, ReadFail);
    hide Next, Enabled, ReadFailedSection;
    if s'.decisions == 0 {
      HalfCloseDrains(s', acts);
    } else {
      DecidedDrained(s);
      KeepsFlags(s', acts);
      InvExec(s', acts);
      DoneBounded(Exec(s', acts));
    }
  }

  lemma DecidedDrained<F>(s: Sys<F>)
    requires Inv(s) && Next(s, ReadFail).decisions > s.decisions
    ensures s.done == |s.accepted|
  {
    DecisionMeansDrained(s, ReadFail);
  }

  lemma DoneBounded<F>(s: Sys<F>)
    requires Inv(s)
    ensures s.done <= |s.accepted|
  {
    assert Flowing(s);
  }

  // -------------------------------------------------------------------- finishing

  /** A decision is carried out: until the stream is finished a thread is on its way, with the
      status still to be read or in its hands. */
  predicate DecisionWatched<F>(s: Sys<F>) {
    s.decisions > 0 && !s.r.finished ==>
      Decided in s.finishers || Resolved(Ok) in s.finishers || Resolved(Cancelled) in s.finishers
  }

  lemma DecisionWatchedStep<F>(s: Sys<F>, a: Action<F>)
    requires DecisionWatched(s) && Enabled(s, a)
    ensures DecisionWatched(Next(s, a))
  {
  }

  lemma {:induction false} DecisionWatchedExec<F>(s: Sys<F>, acts: seq<Action<F>>)
    requires DecisionWatched(s) && CanExec(s, acts)
    ensures DecisionWatched(Exec(s, acts))
    decreases |acts|
  {
    hide Next, Enabled, DecisionWatched;
    if acts != [] {
      DecisionWatchedStep(s, acts[0]);
      DecisionWatchedExec(Next(s, acts[0]), acts[1..]);
    }
  }

  /** Over every run: where a drained finish was decided upon, or a write failed, and no thread
      is on its way to finish the stream, it is finished, once. */
  lemma FinishComes<F>(limits: Limits, acts: seq<Action<F>>)
    requires Coherent(limits) && CanExec(Init<F>(limits), acts)
    ensures var s := Exec(Init(limits), acts);
            (s.decisions > 0 || s.failures > 0) && s.finishers == multiset{} ==> s.r.finished && |s.r.finishes| == 1
  {
    InvExec(Init<F>(limits), acts);
    DecisionWatchedExec(Init<F>(limits), acts);
    var s := Exec(Init<F>(limits), acts);
    assert FailureWatched(s) && OneShot(s);
    hide Exec, CanExec;
  }

  /** What the first Finish reports: that of a failed write says cancelled; a drained one says
      whether the stream was cancelled when the status was read. */
  lemma FinishReports<F>(s: Sys<F>, who: Finisher)
    requires !s.r.finished && who in s.finishers && who != Decided
    ensures var s' := Next(s, IssueFinish(who));
            && s'.r.finished && s'.accepted == s.accepted && s'.r.outbox == s.r.outbox
            && s'.r.finishes == s.r.finishes + [if who == Broken then Cancelled else who.status]
    ensures Decided in s.finishers ==>
      Next(s, ReadStatus).finishers
        == s.finishers - multiset{Decided} + multiset{Resolved(if s.r.cancelled then Cancelled else Ok)}
  {
  }
}
