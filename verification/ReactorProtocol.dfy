/** Every interleaving of the threads that touch one reactor: publishers and the
    presence push (Push, then Kick), gRPC's write completions (WriteDone, then
    DrainKick, then Check), the failing read, cancellation and supersession, and the
    threads that decided to finish the stream but have not issued Finish yet. */
module ReactorProtocol {
  import opened Reactor

  /** A thread on its way to `finish_`: after a failed write, after a drained-finish
      decision (status not read yet), or with its status in hand. */
  datatype Finisher = Broken | Decided | Resolved(status: FinishStatus)

  datatype Sys<!F> = Sys(
    r: R<F>,
    accepted: seq<F>,      // frames answered Accepted, in order
    done: nat,             // completed writes; the i-th completion has id i
    failures: nat,         // how many of them failed
    kickers: nat,          // threads between a push (or a read failure) and startWrite_
    draining: set<nat>,    // completions between OnWriteDone's first section and startWrite_
    checking: set<nat>,    // completions between startWrite_ and the drain check
    finishers: multiset<Finisher>,
    decisions: nat         // drained-finish decisions taken
  )

  datatype Action<!F> =
    | Push(frame: F) | Kick
    | WriteDone(ok: bool) | DrainKick(id: nat) | Check(id: nat)
    | ReadFail | ReadStatus | IssueFinish(who: Finisher) | Deny
    | Cancel | SupersedeIt

  function Init<F>(limits: Limits): Sys<F> {
    Sys(NewReactor(limits), [], 0, 0, 0, {}, {}, multiset{}, 0)
  }

  predicate Enabled<F>(s: Sys<F>, a: Action<F>) {
    match a
    case Kick => s.kickers > 0
    case WriteDone(_) => s.r.writing
    case DrainKick(id) => id in s.draining
    case Check(id) => id in s.checking
    case ReadStatus => Decided in s.finishers
    case IssueFinish(who) => who in s.finishers && who != Decided
    case _ => true
  }

  function One<T>(t: T, present: bool): multiset<T> { if present then multiset{t} else multiset{} }

  function Count(present: bool): nat { if present then 1 else 0 }

  function Next<F>(s: Sys<F>, a: Action<F>): Sys<F>
    requires Enabled(s, a)
  {
    match a
    case Push(frame) =>
      var e := EnqueueSection(s.r, frame);
      s.(r := e.r, accepted := if e.status == Accepted then s.accepted + [frame] else s.accepted,
         kickers := s.kickers + Count(e.needWrite))
    case Kick => s.(r := StartWriteSection(s.r), kickers := s.kickers - 1)
    case WriteDone(ok) =>
      var d := WriteDoneSection(s.r, ok);
      s.(r := d.r, done := s.done + 1, failures := s.failures + Count(!ok),
         draining := if ok then s.draining + {s.done} else s.draining,
         finishers := s.finishers + One(Broken, d.finishNow))
    case DrainKick(id) =>
      s.(r := StartWriteSection(s.r), draining := s.draining - {id}, checking := s.checking + {id})
    case Check(id) =>
      var d := DrainCheckSection(s.r);
      s.(r := d.r, checking := s.checking - {id}, finishers := s.finishers + One(Decided, d.finishNow),
         decisions := s.decisions + Count(d.finishNow))
    case ReadFail =>
      var d := ReadFailedSection(s.r);
      s.(r := d.r, kickers := s.kickers + Count(d.needKick), finishers := s.finishers + One(Decided, d.canFinish),
         decisions := s.decisions + Count(d.canFinish))
    case ReadStatus =>
      s.(finishers := s.finishers - multiset{Decided} + multiset{Resolved(TeardownStatus(s.r))})
    case IssueFinish(who) =>
      s.(r := FinishSection(s.r, if who == Broken then Cancelled else who.status),
           finishers := s.finishers - multiset{who})
    case Deny => s.(finishers := s.finishers + multiset{Resolved(PermissionDenied)})
    case Cancel => s.(r := CancelSection(s.r))
    case SupersedeIt => s.(r := Supersede(s.r))
  }

  predicate CanExec<F>(s: Sys<F>, acts: seq<Action<F>>)
    decreases |acts|
  {
    acts == [] || (Enabled(s, acts[0]) && CanExec(Next(s, acts[0]), acts[1..]))
  }

  function Exec<F>(s: Sys<F>, acts: seq<Action<F>>): Sys<F>
    requires CanExec(s, acts)
    decreases |acts|
  {
    if acts == [] then s else Exec(Next(s, acts[0]), acts[1..])
  }

  // ------------------------------------------------- callbacks as undisturbed runs

  lemma Opens<F>(s: Sys<F>, a: Action<F>, rest: seq<Action<F>>)
    requires Enabled(s, a) && CanExec(Next(s, a), rest)
    ensures CanExec(s, [a] + rest) && Exec(s, [a] + rest) == Exec(Next(s, a), rest)
  {
    hide Next, Enabled;
    assert ([a] + rest)[1..] == rest;
  }

  lemma Ends<F>(s: Sys<F>, a: Action<F>)
    requires Enabled(s, a)
    ensures CanExec(s, [a]) && Exec(s, [a]) == Next(s, a)
  {
    hide Next, Enabled;
    Opens(s, a, []);
    assert [a] + [] == [a];
  }

  /** A thread that decided to finish reads the status, then issues Finish. */
  function FinishActs<F>(r: R<F>): seq<Action<F>> { [ReadStatus] + [IssueFinish(Resolved(TeardownStatus(r)))] }

  lemma StatusRead<F>(s: Sys<F>)
    requires Decided in s.finishers
    ensures Enabled(s, ReadStatus)
    ensures var s1 := Next(s, ReadStatus);
            s1.r == s.r && s1.accepted == s.accepted && Resolved(TeardownStatus(s.r)) in s1.finishers
  {
  }

  lemma FinishIssued<F>(s: Sys<F>, status: FinishStatus)
    requires Resolved(status) in s.finishers
    ensures Enabled(s, IssueFinish(Resolved(status)))
    ensures var s1 := Next(s, IssueFinish(Resolved(status)));
            s1.r == FinishSection(s.r, status) && s1.accepted == s.accepted
  {
  }

  lemma FinishRun<F>(s: Sys<F>)
    requires Decided in s.finishers
    ensures CanExec(s, FinishActs(s.r)) && Exec(s, FinishActs(s.r)).r == FinishSection(s.r, TeardownStatus(s.r))
  {
    hide Exec, CanExec, Next, Enabled, TeardownStatus, FinishSection;
    var status := TeardownStatus(s.r);
    StatusRead(s);
    FinishIssued(Next(s, ReadStatus), status);
    Ends(Next(s, ReadStatus), IssueFinish(Resolved(status)));
    Opens(s, ReadStatus, [IssueFinish(Resolved(status))]);
  }

  function EnqueueActs<F>(r: R<F>, frame: F): seq<Action<F>> {
    [Push(frame)] + if EnqueueSection(r, frame).needWrite then [Kick] else []
  }

  /** The enqueue method, undisturbed, is its push section and then its write. */
  lemma EnqueueIsRun<F>(s: Sys<F>, frame: F)
    ensures CanExec(s, EnqueueActs(s.r, frame)) && Exec(s, EnqueueActs(s.r, frame)).r == EnqueueCall(s.r, frame)
  {
    var s1 := Next(s, Push(frame));
    if EnqueueSection(s.r, frame).needWrite {
      Ends(s1, Kick);
      Opens(s, Push(frame), [Kick]);
    } else {
      Opens(s, Push(frame), []);
    }
  }

  function ReadFailedActs<F>(r: R<F>): seq<Action<F>> {
    var d := ReadFailedSection(r);
    [ReadFail] + if d.canFinish then FinishActs(d.r) else if d.needKick then [Kick] else []
  }

  lemma ReadFailedIsRun<F>(s: Sys<F>)
    ensures CanExec(s, ReadFailedActs(s.r)) && Exec(s, ReadFailedActs(s.r)).r == ReadFailedCall(s.r)
  {
    var d, s1 := ReadFailedSection(s.r), Next(s, ReadFail);
    if d.canFinish {
      FinishRun(s1);
      Opens(s, ReadFail, FinishActs(d.r));
    } else if d.needKick {
      Ends(s1, Kick);
      Opens(s, ReadFail, [Kick]);
    } else {
      Opens(s, ReadFail, []);
    }
  }

  /** After the refill: the drain check, and the finish it may decide. */
  function DrainActs<F>(r: R<F>, id: nat): seq<Action<F>> {
    [Check(id)] + if DrainCheckSection(r).finishNow then FinishActs(DrainCheckSection(r).r) else []
  }

  lemma DrainRun<F>(s: Sys<F>, id: nat)
    requires id in s.checking
    ensures var last := DrainCheckSection(s.r);
            && CanExec(s, DrainActs(s.r, id))
            && Exec(s, DrainActs(s.r, id)).r
                   == if last.finishNow then FinishSection(last.r, TeardownStatus(last.r)) else last.r
  {
    var last, s1 := DrainCheckSection(s.r), Next(s, Check(id));
    if last.finishNow {
      FinishRun(s1);
      Opens(s, Check(id), FinishActs(last.r));
    } else {
      Opens(s, Check(id), []);
    }
  }

  function WriteDoneActs<F>(r: R<F>, ok: bool, id: nat): seq<Action<F>> {
    var first := WriteDoneSection(r, ok);
    [WriteDone(ok)] + if ok then [DrainKick(id)] + DrainActs(StartWriteSection(first.r), id)
                      else if first.finishNow then [IssueFinish(Broken)] else []
  }

  lemma WriteDoneIsRun<F>(s: Sys<F>, ok: bool)
    requires s.r.writing
    ensures CanExec(s, WriteDoneActs(s.r, ok, s.done))
            && Exec(s, WriteDoneActs(s.r, ok, s.done)).r == WriteDoneCall(s.r, ok)
  {
    var first, s1 := WriteDoneSection(s.r, ok), Next(s, WriteDone(ok));
    if ok {
      var s2 := Next(s1, DrainKick(s.done));
      DrainRun(s2, s.done);
      Opens(s1, DrainKick(s.done), DrainActs(s2.r, s.done));
      Opens(s, WriteDone(ok), [DrainKick(s.done)] + DrainActs(s2.r, s.done));
    } else if first.finishNow {
      Ends(s1, IssueFinish(Broken));
      Opens(s, WriteDone(ok), [IssueFinish(Broken)]);
    } else {
      Opens(s, WriteDone(ok), []);
    }
  }

  // ---------------------------------------------------------------- invariant

  /** The newest completion's handler is still on its way to the drain check. */
  ghost predicate LastPending<F>(s: Sys<F>) {
    s.done > 0 && (s.done - 1 in s.draining || s.done - 1 in s.checking)
  }

  /** Frames accepted = frames handed to StartWrite followed by the outbox; at most one
      write is outstanding. */
  ghost predicate Flowing<F>(s: Sys<F>) {
    s.accepted == s.r.started + s.r.outbox && |s.r.started| == s.done + Count(s.r.writing)
  }

  /** The backlog stays inside the bound. */
  ghost predicate Bounded<F>(s: Sys<F>) {
    && Coherent(s.r.limits) && |s.r.outbox| <= s.r.limits.hwm
    && |s.r.outbox| + Count(s.r.writing) <= s.r.limits.maxFrames
  }

  /** Finish is one-shot. */
  ghost predicate OneShot<F>(s: Sys<F>) { |s.r.finishes| == Count(s.r.finished) }

  /** Handlers belong to completions that happened. */
  ghost predicate Handlers<F>(s: Sys<F>) {
    (forall id <- s.draining :: id < s.done) && (forall id <- s.checking :: id < s.done)
  }

  /** Only a failed write sends off a thread that finishes the stream as broken. */
  ghost predicate Blame<F>(s: Sys<F>) { s.failures == 0 ==> Broken !in s.finishers }

  ghost predicate Conserved<F>(s: Sys<F>) { Flowing(s) && Bounded(s) && OneShot(s) && Handlers(s) && Blame(s) }

  /** Somebody will write again: a write in flight or a thread about to start one. */
  ghost predicate WriterComing<F>(s: Sys<F>) { s.r.writing || s.kickers > 0 || s.draining != {} }

  ghost predicate Awake<F>(s: Sys<F>) {
    !s.r.finished && s.r.outbox != [] ==> WriterComing(s) || Broken in s.finishers
  }

  /** With no failed write, a latch cannot be forgotten ... */
  ghost predicate LatchWatched<F>(s: Sys<F>) {
    !s.r.finished && s.failures == 0 && s.r.backpressured ==> s.r.outbox != [] || s.r.writing || LastPending(s)
  }

  /** ... nor can a half-close. */
  ghost predicate HalfCloseWatched<F>(s: Sys<F>) {
    !s.r.finished && s.failures == 0 && s.r.finishPending ==>
      s.decisions > 0 || s.r.outbox != [] || s.r.writing || LastPending(s)
  }

  /** A failed write's own finisher is pending until the stream is finished. */
  ghost predicate FailureWatched<F>(s: Sys<F>) { s.failures > 0 && !s.r.finished ==> Broken in s.finishers }

  ghost predicate Inv<F>(s: Sys<F>) {
    Conserved(s) && Awake(s) && LatchWatched(s) && HalfCloseWatched(s) && FailureWatched(s)
  }

  lemma ConservedStep<F>(s: Sys<F>, a: Action<F>)
    requires Conserved(s) && Enabled(s, a)
    ensures Conserved(Next(s, a))
  {
    FlowingStep(s, a);
    BoundedStep(s, a);
    OneShotStep(s, a);
    HandlersStep(s, a);
    BlameStep(s, a);
    hide Next, Enabled, Flowing, Bounded, OneShot, Handlers, Blame;
  }

  lemma BoundedStep<F>(s: Sys<F>, a: Action<F>)
    requires Flowing(s) && Bounded(s) && Enabled(s, a)
    ensures Bounded(Next(s, a))
  {
  }

  lemma OneShotStep<F>(s: Sys<F>, a: Action<F>)
    requires OneShot(s) && Enabled(s, a)
    ensures OneShot(Next(s, a))
  {
  }

  lemma HandlersStep<F>(s: Sys<F>, a: Action<F>)
    requires Handlers(s) && Enabled(s, a)
    ensures Handlers(Next(s, a))
  {
    hide EnqueueSection, StartWriteSection, WriteDoneSection, DrainCheckSection, ReadFailedSection, FinishSection,
         CancelSection, TeardownStatus;
  }

  lemma BlameStep<F>(s: Sys<F>, a: Action<F>)
    requires Blame(s) && Enabled(s, a)
    ensures Blame(Next(s, a))
  {
    hide EnqueueSection, StartWriteSection, DrainCheckSection, ReadFailedSection, FinishSection, CancelSection;
  }

  lemma FlowingStep<F>(s: Sys<F>, a: Action<F>)
    requires Flowing(s) && Enabled(s, a)
    ensures Flowing(Next(s, a))
  {
    var s' := Next(s, a);
    if s'.r.started != s.r.started {
      assert s.r.started + s.r.outbox == (s.r.started + [s.r.outbox[0]]) + s.r.outbox[1..];
    }
    if s'.accepted != s.accepted {
      assert (s.r.started + s.r.outbox) + [a.frame] == s.r.started + (s.r.outbox + [a.frame]);
    }
  }

  lemma AwakeStep<F>(s: Sys<F>, a: Action<F>)
    requires Awake(s) && Enabled(s, a)
    ensures Awake(Next(s, a))
  {
  }

  lemma LatchWatchedStep<F>(s: Sys<F>, a: Action<F>)
    requires Conserved(s) && LatchWatched(s) && Enabled(s, a)
    ensures LatchWatched(Next(s, a))
  {
    var s' := Next(s, a);
    if s.r.backpressured && LastPending(s) && s'.r.backpressured && !s'.r.finished && s'.failures == 0 {
      if a.Check? {
        assert s'.r == s.r;
      }
    }
  }

  lemma HalfCloseWatchedStep<F>(s: Sys<F>, a: Action<F>)
    requires Conserved(s) && HalfCloseWatched(s) && Enabled(s, a)
    ensures HalfCloseWatched(Next(s, a))
  {
    if a.Check? && a.id + 1 == s.done && !DrainCheckSection(s.r).finishNow {
      assert s.r.finishPending ==> s.r.writing || s.r.outbox != [];
    }
  }

  lemma FailureWatchedStep<F>(s: Sys<F>, a: Action<F>)
    requires FailureWatched(s) && Enabled(s, a)
    ensures FailureWatched(Next(s, a))
  {
  }

  lemma InvStep<F>(s: Sys<F>, a: Action<F>)
    requires Inv(s) && Enabled(s, a)
    ensures Inv(Next(s, a))
  {
    ConservedStep(s, a);
    AwakeStep(s, a);
    LatchWatchedStep(s, a);
    HalfCloseWatchedStep(s, a);
    FailureWatchedStep(s, a);
    hide Next, Enabled, Conserved, Awake, LatchWatched, HalfCloseWatched, FailureWatched;
  }

  /** Main invariant: it holds after every interleaving. */
  lemma {:induction false} InvExec<F>(s: Sys<F>, acts: seq<Action<F>>)
    requires Inv(s) && CanExec(s, acts)
    ensures Inv(Exec(s, acts))
    decreases |acts|
  {
    if acts != [] {
      InvStep(s, acts[0]);
      InvExec(Next(s, acts[0]), acts[1..]);
    }
  }

  /** Conservation over every interleaving of a stream's life. */
  lemma OutboxConservation<F>(limits: Limits, acts: seq<Action<F>>)
    requires Coherent(limits) && CanExec(Init<F>(limits), acts)
    ensures var s := Exec(Init(limits), acts);
            && s.accepted == s.r.started + s.r.outbox
            && s.done <= |s.r.started| <= s.done + 1
            && |s.r.outbox| <= s.r.limits.hwm < s.r.limits.maxFrames
            && |s.r.outbox| + (|s.r.started| - s.done) <= s.r.limits.maxFrames
            && |s.r.finishes| <= 1
  {
    InvExec(Init<F>(limits), acts);
  }

  // -------------------------------------------------------------- wake-up, latch

  /** No lost wake-up: unless a write has failed, an unfinished stream with queued
      frames has a write in flight or a thread about to start one. */
  lemma NoLostWakeup<F>(limits: Limits, acts: seq<Action<F>>)
    requires Coherent(limits) && CanExec(Init<F>(limits), acts)
    ensures var s := Exec(Init(limits), acts);
            !s.r.finished && s.r.outbox != [] ==> WriterComing(s) || (s.failures > 0 && Broken in s.finishers)
  {
    InvExec(Init<F>(limits), acts);
  }

  /** Nobody forgets a queued frame of an unfinished stream. */
  ghost predicate WakeupKept<F>(s: Sys<F>) { !s.r.finished && s.r.outbox != [] ==> WriterComing(s) }

  /** Exactly which step loses the wake-up: a failed write's completion, when frames are
      queued and no other thread is on its way to startWrite_. */
  lemma WakeupLostIff<F>(s: Sys<F>, a: Action<F>)
    requires WakeupKept(s) && Enabled(s, a)
    ensures WakeupKept(Next(s, a)) <==>
      !(a == WriteDone(false) && !s.r.finished && s.r.outbox != [] && s.kickers == 0 && s.draining == {})
  {
  }

  /** The exception is real: between a failed write's completion and its Finish, the
      stream is live, holds an accepted frame and nobody is going to write it. */
  lemma WakeupLostAfterFailedWrite<F>(limits: Limits, a: F, b: F)
    requires Coherent(limits)
    ensures exists acts: seq<Action<F>> :: CanExec(Init(limits), acts)
              && var s := Exec(Init(limits), acts); IsLive(s.r) && s.r.outbox == [b] && !WriterComing(s)
  {
    var acts: seq<Action<F>> := [Push(a), Kick, Push(b), WriteDone(false)];
    var s0 := Init<F>(limits);
    var s1 := Next(s0, Push(a));
    var s2 := Next(s1, Kick);
    var s3 := Next(s2, Push(b));
    assert s2.r.outbox == [] && s2.r.writing && s2.kickers == 0;
    assert s3.r.outbox == [b];
    ExecFour(s0, acts);
  }

  lemma ExecFour<F>(s: Sys<F>, acts: seq<Action<F>>)
    requires |acts| == 4 && Enabled(s, acts[0]) && Enabled(Next(s, acts[0]), acts[1])
    requires Enabled(Next(Next(s, acts[0]), acts[1]), acts[2])
    requires Enabled(Next(Next(Next(s, acts[0]), acts[1]), acts[2]), acts[3])
    ensures CanExec(s, acts)
    ensures Exec(s, acts) == Next(Next(Next(Next(s, acts[0]), acts[1]), acts[2]), acts[3])
  {
    var s1 := Next(s, acts[0]);
    var s2 := Next(s1, acts[1]);
    var s3 := Next(s2, acts[2]);
    var t1, t2, t3 := acts[1..], acts[2..], acts[3..];
    assert t1[0] == acts[1] && t2[0] == acts[2] && t3[0] == acts[3];
    assert t1[1..] == t2 && t2[1..] == t3 && t3[1..] == [];
    assert Exec(s3, t3) == Exec(Next(s3, acts[3]), []) == Next(s3, acts[3]);
    assert Exec(s2, t2) == Exec(s3, t3);
    assert Exec(s1, t1) == Exec(s2, t2);
  }

  /** Latched, unfinished and without a new write failure in every state of the run. */
  ghost predicate StaysLatched<F>(s: Sys<F>, acts: seq<Action<F>>)
    requires CanExec(s, acts)
    decreases |acts|
  {
    && s.r.backpressured && !s.r.finished
    && (acts != [] ==> acts[0] != WriteDone(false) && StaysLatched(Next(s, acts[0]), acts[1..]))
  }

  ghost predicate Handled<F>(s: Sys<F>, id: nat) { id < s.done && id !in s.draining && id !in s.checking }

  /** Since a state with `c` completions, `n` queued and `st` started frames: nothing was
      accepted, and each completion past its startWrite_ took a frame off the outbox. */
  ghost predicate Refilled<F>(s: Sys<F>, c: nat, n: nat, st: nat) {
    && |s.r.started| + |s.r.outbox| == st + n && c <= s.done && c <= st <= c + 1
    && forall id | c <= id < s.done && id !in s.draining :: s.r.outbox == [] || n - |s.r.outbox| > id - c
  }

  ghost predicate LatchTrack<F>(s: Sys<F>, l: Limits, c: nat, n: nat, st: nat) {
    && s.r.limits == l && Refilled(s, c, n, st)
    && (forall id: nat | c <= id && Handled(s, id) :: id - c + 1 < n - l.lwm)
  }

  lemma RefilledStep<F>(s: Sys<F>, a: Action<F>, c: nat, n: nat, st: nat)
    requires Conserved(s) && Refilled(s, c, n, st) && s.r.backpressured && !s.r.finished
    requires Enabled(s, a) && a != WriteDone(false)
    ensures Refilled(Next(s, a), c, n, st)
  {
  }

  lemma LatchTrackStep<F>(s: Sys<F>, a: Action<F>, l: Limits, c: nat, n: nat, st: nat)
    requires Conserved(s) && LatchTrack(s, l, c, n, st) && s.r.backpressured && !s.r.finished
    requires Enabled(s, a) && a != WriteDone(false)
    requires Next(s, a).r.backpressured
    ensures LatchTrack(Next(s, a), l, c, n, st)
  {
    var s' := Next(s, a);
    RefilledStep(s, a, c, n, st);
    forall id: nat | c <= id && Handled(s', id) ensures id - c + 1 < n - l.lwm {
      if !Handled(s, id) {
        assert a == Check(id);
        assert |s.r.outbox| > s.r.limits.lwm;
      }
    }
  }

  lemma {:induction false} LatchTrackExec<F>(s: Sys<F>, acts: seq<Action<F>>, l: Limits, c: nat, n: nat, st: nat)
    requires Inv(s) && CanExec(s, acts) && StaysLatched(s, acts) && LatchTrack(s, l, c, n, st)
    ensures LatchTrack(Exec(s, acts), l, c, n, st)
    decreases |acts|
  {
    if acts != [] {
      LatchTrackStep(s, acts[0], l, c, n, st);
      InvStep(s, acts[0]);
      LatchTrackExec(Next(s, acts[0]), acts[1..], l, c, n, st);
    }
  }

  /** A latched reactor is released in time: as long as it stays latched, the write
      completions handled since number fewer than max(1, |outbox| - lwm). */
  lemma LatchReleased<F>(s: Sys<F>, acts: seq<Action<F>>, id: nat)
    requires Inv(s) && CanExec(s, acts) && StaysLatched(s, acts)
    requires s.done <= id && Handled(Exec(s, acts), id)
    ensures id - s.done + 1 < |s.r.outbox| - s.r.limits.lwm
  {
    LatchTrackExec(s, acts, s.r.limits, s.done, |s.r.outbox|, |s.r.started|);
  }

  /** A latch is never left behind: with every thread at rest and no failed write, an
      unfinished reactor is not latched. */
  lemma LatchNeverStuck<F>(s: Sys<F>)
    requires Inv(s) && !s.r.finished && s.failures == 0
    requires !s.r.writing && s.kickers == 0 && s.draining == {} && s.checking == {}
    ensures !s.r.backpressured && s.r.outbox == []
  {
    assert Awake(s);
  }

  // ------------------------------------------------------------------ teardown

  /** A drained-finish decision is taken only when every frame accepted so far has been
      handed to gRPC and its write has completed. On a stream not finished yet all these
      writes succeeded if and only if no failed write's own finisher is on its way. */
  lemma DecisionMeansDrained<F>(s: Sys<F>, a: Action<F>)
    requires Inv(s) && Enabled(s, a) && Next(s, a).decisions > s.decisions
    ensures s.accepted == s.r.started && s.done == |s.accepted| && s.r.outbox == []
    ensures !s.r.finished ==> (s.failures == 0 <==> Broken !in s.finishers)
  {
    assert Blame(s) && FailureWatched(s);
  }

  /** Completed is not succeeded: a read failure that overtakes the failed write's own
      Finish decides a drained finish, and the stream ends with status Ok although its
      only frame was lost. */
  lemma DrainedFinishMayHideLoss<F>(limits: Limits, a: F)
    requires Coherent(limits)
    ensures exists acts: seq<Action<F>> :: CanExec(Init(limits), acts)
              && var s := Exec(Init(limits), acts);
                 s.r.finishes == [Ok] && s.failures == |s.accepted| == 1 && s.r.outbox == []
  {
    hide Next, Enabled, Init, Exec, CanExec, TeardownStatus, FinishSection;
    var acts: seq<Action<F>> := [Push(a), Kick, WriteDone(false), ReadFail];
    OvertakenFinish<F>(limits, a);
    ExecFour(Init<F>(limits), acts);
    var s := Exec(Init<F>(limits), acts);
    FinishRun(s);
    FinishKeepsCounts(s, FinishActs(s.r));
    ExecJoins(Init<F>(limits), acts, FinishActs(s.r));
    var e := Exec(Init<F>(limits), acts + FinishActs(s.r));
    assert e.r == FinishSection(s.r, Ok);
    FinishAppends(s.r);
  }

  lemma OvertakenFinish<F>(limits: Limits, a: F)
    requires Coherent(limits)
    ensures var s0 := Init<F>(limits);
            && Enabled(s0, Push(a)) && Enabled(Next(s0, Push(a)), Kick)
            && var s2 := Next(Next(s0, Push(a)), Kick);
               && Enabled(s2, WriteDone(false)) && Enabled(Next(s2, WriteDone(false)), ReadFail)
               && var s4 := Next(Next(s2, WriteDone(false)), ReadFail);
                  && s4.failures == |s4.accepted| == 1 && s4.r.outbox == [] && Decided in s4.finishers
                  && !s4.r.finished && s4.r.finishes == [] && TeardownStatus(s4.r) == Ok
  {
    var s2 := Next(Next(Init<F>(limits), Push(a)), Kick);
    assert s2.r.writing && s2.r.outbox == [];
  }

  lemma FinishAppends<F>(r: R<F>)
    requires !r.finished && r.finishes == []
    ensures FinishSection(r, Ok).finishes == [Ok] && FinishSection(r, Ok).outbox == r.outbox
  {
  }

  lemma FinishKeepsCounts<F>(s: Sys<F>, acts: seq<Action<F>>)
    requires Decided in s.finishers && acts == FinishActs(s.r) && CanExec(s, acts)
    ensures Exec(s, acts).failures == s.failures && Exec(s, acts).accepted == s.accepted
  {
    StatusRead(s);
    var s1 := Next(s, ReadStatus);
    FinishIssued(s1, TeardownStatus(s.r));
    assert acts[1..] == [IssueFinish(Resolved(TeardownStatus(s.r)))];
    Ends(s1, IssueFinish(Resolved(TeardownStatus(s.r))));
    hide EnqueueSection, StartWriteSection, WriteDoneSection, DrainCheckSection, ReadFailedSection, CanExec;
  }

  lemma {:induction false} ExecJoins<F>(s: Sys<F>, a: seq<Action<F>>, b: seq<Action<F>>)
    requires CanExec(s, a) && CanExec(Exec(s, a), b)
    ensures CanExec(s, a + b) && Exec(s, a + b) == Exec(Exec(s, a), b)
    decreases |a|
  {
    hide Next, Enabled;
    if a == [] {
      assert a + b == b;
    } else {
      assert (a + b)[1..] == a[1..] + b;
      ExecJoins(Next(s, a[0]), a[1..], b);
    }
  }

  /** On a finished stream nothing moves any more: what is queued stays queued. */
  lemma {:induction false} FinishFreezes<F>(s: Sys<F>, acts: seq<Action<F>>)
    requires CanExec(s, acts) && s.r.finished
    ensures var e := Exec(s, acts);
            && e.r.finished && e.r.finishes == s.r.finishes
            && e.accepted == s.accepted && e.r.started == s.r.started && e.r.outbox == s.r.outbox
    decreases |acts|
  {
    if acts != [] {
      FrozenStep(s, acts[0]);
      FinishFreezes(Next(s, acts[0]), acts[1..]);
    }
    hide Next, Enabled;
  }

  lemma FrozenStep<F>(s: Sys<F>, a: Action<F>)
    requires Enabled(s, a) && s.r.finished
    ensures var e := Next(s, a);
            && e.r.finished && e.r.finishes == s.r.finishes
            && e.accepted == s.accepted && e.r.started == s.r.started && e.r.outbox == s.r.outbox
  {
    FinishedSections(s.r);
    if a.Push? {
      FinishedRefuses(s.r, a.frame);
    }
    hide EnqueueSection, StartWriteSection, DrainCheckSection, ReadFailedSection, FinishSection, CancelSection;
  }

  /** Every section but those that only flip flags leaves a finished stream as it is. */
  lemma FinishedSections<F>(r: R<F>)
    requires r.finished
    ensures StartWriteSection(r) == r && ReadFailedSection(r).r == r && CancelSection(r) == r
    ensures forall status :: FinishSection(r, status) == r
    ensures var c := DrainCheckSection(r).r;
            c.finished && c.finishes == r.finishes && c.started == r.started && c.outbox == r.outbox
  {
  }

  lemma FinishedRefuses<F>(r: R<F>, frame: F)
    requires r.finished
    ensures EnqueueSection(r, frame).r == r && EnqueueSection(r, frame).status == NotConnected
  {
  }

  /** When a drained finish takes effect with status Ok: it is the stream's only Finish;
      some write had failed if and only if the failed write's own finisher is still
      pending; and of the accepted frames exactly those then queued are never written,
      whatever happens later. */
  lemma OkFinish<F>(s: Sys<F>, acts: seq<Action<F>>)
    requires Inv(s) && Resolved(Ok) in s.finishers && !s.r.finished
    requires CanExec(Next(s, IssueFinish(Resolved(Ok))), acts)
    ensures s.failures > 0 <==> Broken in s.finishers
    ensures var e := Exec(Next(s, IssueFinish(Resolved(Ok))), acts);
            && e.r.finishes == [Ok]
            && e.r.started == s.r.started && e.accepted == e.r.started + s.r.outbox
  {
    assert Flowing(s) && OneShot(s) && Blame(s) && FailureWatched(s);
    FinishIssued(s, Ok);
    FinishFreezes(Next(s, IssueFinish(Resolved(Ok))), acts);
    hide Exec, CanExec, Inv;
  }

  /** Queued at that point can only be what was accepted after the decision. */
  lemma OnlyLateFramesStranded<F>(s: Sys<F>, a: Action<F>, acts: seq<Action<F>>)
    requires Inv(s) && Enabled(s, a) && Next(s, a).decisions > s.decisions && CanExec(Next(s, a), acts)
    ensures s.accepted <= Exec(Next(s, a), acts).r.started
  {
    DecisionMeansDrained(s, a);
    InvStep(s, a);
    AcceptedStep(s, a);
    StartedStep(s, a);
    hide Next, Enabled;
    KeepsFlags(Next(s, a), acts);
    StartedGrows(Next(s, a), acts);
    InvExec(Next(s, a), acts);
    var e := Exec(Next(s, a), acts);
    assert Flowing(e) && s.accepted <= e.accepted == e.r.started + e.r.outbox;
  }

  lemma {:induction false} StartedGrows<F>(s: Sys<F>, acts: seq<Action<F>>)
    requires CanExec(s, acts)
    ensures |s.r.started| <= |Exec(s, acts).r.started|
    decreases |acts|
  {
    if acts != [] {
      StartedStep(s, acts[0]);
      StartedGrows(Next(s, acts[0]), acts[1..]);
    }
    hide Next, Enabled;
  }

  /** And such a frame there can be: accepted between the decision and the Finish. */
  lemma LateFrameStranded<F>(limits: Limits, a: F)
    requires Coherent(limits)
    ensures exists acts: seq<Action<F>> :: CanExec(Init(limits), acts)
              && var s := Exec(Init(limits), acts); s.r.finishes == [Ok] && s.accepted == s.r.outbox == [a]
  {
    hide Next, Enabled, Init, Exec, CanExec, TeardownStatus;
    var acts: seq<Action<F>> := [ReadFail, Push(a), ReadStatus, IssueFinish(Resolved(Ok))];
    LateAccept<F>(limits, a);
    var s2 := Next(Next(Init<F>(limits), ReadFail), Push(a));
    StatusRead(s2);
    var s3 := Next(s2, ReadStatus);
    FinishIssued(s3, Ok);
    ExecFour(Init<F>(limits), acts);
    var s4 := Next(s3, IssueFinish(Resolved(Ok)));
    assert s4.r.finishes == [Ok] && s4.accepted == s4.r.outbox == [a];
  }

  lemma LateAccept<F>(limits: Limits, a: F)
    requires Coherent(limits)
    ensures Enabled(Init<F>(limits), ReadFail) && Enabled(Next(Init<F>(limits), ReadFail), Push(a))
    ensures var s2 := Next(Next(Init<F>(limits), ReadFail), Push(a));
            && s2.r == NewReactor<F>(limits).(outbox := [a]) && s2.accepted == [a]
            && Decided in s2.finishers && TeardownStatus(s2.r) == Ok
  {
  }

  /** After a half-close, with no further accepts and no failed write: the decision comes
      after exactly |outbox| + in-flight completions, and once the last of these has
      been handled it has been taken. */
  lemma {:induction false} HalfCloseDrains<F>(s: Sys<F>, acts: seq<Action<F>>)
    requires Inv(s) && CanExec(s, acts) && s.r.finishPending && s.decisions == 0
    requires var e := Exec(s, acts); e.accepted == s.accepted && e.failures == 0 && !e.r.finished
    ensures var e := Exec(s, acts); var due := s.done + |s.r.outbox| + Count(s.r.writing);
            && due == |s.accepted| && e.done <= due
            && (e.decisions > 0 ==> e.done == due)
            && (e.done == due && !LastPending(e) ==> e.decisions > 0)
  {
    InvExec(s, acts);
    KeepsFlags(s, acts);
    DecidedAtEnd(s, acts);
  }

  ghost predicate Counts<F>(s: Sys<F>, e: Sys<F>) {
    s.done <= e.done && s.failures <= e.failures && s.decisions <= e.decisions
  }

  ghost predicate KeepsTeardown<F>(s: Sys<F>, e: Sys<F>) {
    && (s.r.finishPending ==> e.r.finishPending) && (s.r.finished ==> e.r.finished) && (s.r.cancelled ==> e.r.cancelled)
    && (!IsLive(s.r) ==> !IsLive(e.r))
  }

  lemma AcceptedStep<F>(s: Sys<F>, a: Action<F>)
    requires Enabled(s, a)
    ensures s.accepted <= Next(s, a).accepted
    ensures !IsLive(s.r) ==> Next(s, a).accepted == s.accepted
  {
  }

  lemma StartedStep<F>(s: Sys<F>, a: Action<F>)
    requires Enabled(s, a)
    ensures |s.r.started| <= |Next(s, a).r.started|
  {
  }

  lemma CountsStep<F>(s: Sys<F>, a: Action<F>)
    requires Enabled(s, a)
    ensures Counts(s, Next(s, a))
  {
  }

  lemma KeepsTeardownStep<F>(s: Sys<F>, a: Action<F>)
    requires Enabled(s, a)
    ensures KeepsTeardown(s, Next(s, a))
  {
  }

  /** The accept log and the counters only grow, teardown flags stay; a stream that is cancelled, superseded or
      finished never accepts again. */
  lemma {:induction false} KeepsFlags<F>(s: Sys<F>, acts: seq<Action<F>>)
    requires CanExec(s, acts)
    ensures s.accepted <= Exec(s, acts).accepted && Counts(s, Exec(s, acts)) && KeepsTeardown(s, Exec(s, acts))
    ensures !IsLive(s.r) ==> Exec(s, acts).accepted == s.accepted
    decreases |acts|
  {
    if acts != [] {
      AcceptedStep(s, acts[0]);
      CountsStep(s, acts[0]);
      KeepsTeardownStep(s, acts[0]);
      KeepsFlags(Next(s, acts[0]), acts[1..]);
    }
  }

  lemma {:induction false} DecidedAtEnd<F>(s: Sys<F>, acts: seq<Action<F>>)
    requires Inv(s) && CanExec(s, acts) && Exec(s, acts).accepted == s.accepted
    requires s.decisions > 0 ==> s.done == |s.accepted|
    ensures Exec(s, acts).decisions > 0 ==> Exec(s, acts).done == |s.accepted|
    decreases |acts|
  {
    if acts != [] {
      var s' := Next(s, acts[0]);
      InvStep(s, acts[0]);
      AcceptedStep(s, acts[0]);
      CountsStep(s, acts[0]);
      KeepsFlags(s', acts[1..]);
      DecidedAtEnd(s', acts[1..]);
    }
  }
}
