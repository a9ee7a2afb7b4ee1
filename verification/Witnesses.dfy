/** Runs of the whole machine that lose a frame, from the first dial on: what the lossless
    theorem rules out does happen. */
module Witnesses {
  import opened Keys
  import opened Numbers
  import opened Window
  import opened Receiver
  import opened Reactor
  import opened World
  import opened Ordering
  import opened EndToEnd
  import opened Lossless
  import opened Disciplines
  import P = ReactorProtocol

  /** The node's state after its first dial was registered. */
  function FirstDialed(uid: nat, me: SubscriberKey, limits: Limits): W {
    Start(uid, me, limits).(
      streams := [Stream(me, P.Init(limits), true, false)], gen := Some(0),
      rx := RxState(map[], {uid}), table := map[me := 0])
  }

  lemma FirstDialRuns(uid: nat, me: SubscriberKey, limits: Limits)
    ensures var steps := [Dial(me, uid), Register(0)];
            && Possible(Start(uid, me, limits), steps)
            && After(Start(uid, me, limits), steps) == FirstDialed(uid, me, limits)
  {
    DialFirst(uid, me, limits);
    RegisterFirst(uid, me, limits);
    hide Next, Enabled, FirstDialed, Start, Possible, After;
    TwoSteps(Start(uid, me, limits), Dial(me, uid), Register(0));
  }

  lemma DialFirst(uid: nat, me: SubscriberKey, limits: Limits)
    ensures Enabled(Start(uid, me, limits), Dial(me, uid))
    ensures Next(Start(uid, me, limits), Dial(me, uid))
         == FirstDialed(uid, me, limits).(streams := [Stream(me, P.Init(limits), false, false)], table := map[])
  {
    assert NoteEstablished(RxState(map[], {}), uid) == RxState(map[], {uid});
  }

  lemma RegisterFirst(uid: nat, me: SubscriberKey, limits: Limits)
    ensures var w0 := FirstDialed(uid, me, limits);
            var w1 := w0.(streams := [Stream(me, P.Init(limits), false, false)], table := map[]);
            Enabled(w1, Register(0)) && Next(w1, Register(0)) == FirstDialed(uid, me, limits)
  {
  }

  /** Every Sent call on `t` in the run was accepted by the observed subscriber. */
  ghost predicate AllTaken(w: W, steps: seq<Step>, t: string)
    requires Possible(w, steps)
    decreases |steps|
  {
    steps != [] ==> TakenStep(w, steps[0], t) && AllTaken(Next(w, steps[0]), steps[1..], t)
  }

  lemma {:induction false} RunJoins(w: W, a: seq<Step>, b: seq<Step>)
    requires Possible(w, a) && Possible(After(w, a), b)
    ensures Possible(w, a + b) && After(w, a + b) == After(After(w, a), b)
    decreases |a|
  {
    hide Next, Enabled;
    if a == [] {
      assert a + b == b;
    } else {
      assert (a + b)[1..] == a[1..] + b;
      RunJoins(Next(w, a[0]), a[1..], b);
    }
  }

  // ------------------------------------------------------ one frame on its way

  /** Nothing is under way: the subscriber reads the stream that serves it, everything
      accepted was written and read, and there is room. */
  predicate Idle(w: W, g: nat) {
    && w.call.None? && Serving(w, g) && Linked(w)
    && var sys := w.streams[g].sys;
       sys.r.outbox == [] && !sys.r.writing && IsSendable(sys.r)
       && sys.accepted == sys.r.started && w.pos == |sys.r.started|
  }

  /** The three steps a frame takes through a stream at rest. */
  function Passed(sys: P.Sys<Frame>, f: Frame): P.Sys<Frame> {
    sys.(r := sys.r.(started := sys.r.started + [f]), accepted := sys.accepted + [f],
         done := sys.done + 1, draining := sys.draining + {sys.done})
  }

  lemma FramePasses(sys: P.Sys<Frame>, f: Frame)
    requires sys.r.outbox == [] && !sys.r.writing && IsSendable(sys.r)
    ensures EnqueueSection(sys.r, f).status == Accepted
    ensures var s1 := P.Next(sys, P.Push(f));
            && P.Enabled(s1, P.Kick)
            && var s2 := P.Next(s1, P.Kick);
               && s2.r.started == sys.r.started + [f] && P.Enabled(s2, P.WriteDone(true))
               && P.Next(s2, P.WriteDone(true)) == Passed(sys, f)
  {
    assert sys.r.outbox + [f] == [f];
  }

  /** A call to `me` alone, its write and its read, undisturbed. */
  function RoundSteps(m: DataMessage, me: SubscriberKey, g: nat): seq<Step> {
    [BeginOf(m, [me])]
    + ([PushNext] + ([End] + ([React(g, P.Kick)] + ([Read] + [React(g, P.WriteDone(true))]))))
  }

  function Calling(w: W, m: DataMessage): W { w.(call := Some(Call(m, [w.me], map[], false))) }

  function Pushed(w: W, m: DataMessage, g: nat): W
    requires g < |w.streams|
  {
    w.(call := Some(Call(m, [], map[w.me := Accepted], true)),
       streams := w.streams[g := w.streams[g].(sys := P.Next(w.streams[g].sys, P.Push(Reliable(m))))])
  }

  function Committed(w: W, m: DataMessage, g: nat): W
    requires g < |w.streams|
  {
    Pushed(w, m, g).(call := None, seqs := w.seqs[TopicOf(m) := m.tid], sent := w.sent + [m])
  }

  /** The state after the round. */
  function Rounded(w: W, m: DataMessage, g: nat): W
    requires g < |w.streams|
  {
    var o := Handle(w.rx, Reliable(m));
    w.(seqs := w.seqs[TopicOf(m) := m.tid], sent := w.sent + [m], pos := w.pos + 1,
       streams := w.streams[g := w.streams[g].(sys := Passed(w.streams[g].sys, Reliable(m)))],
       readLog := w.readLog + [Reliable(m)], rx := o.state, out := w.out + o.dispatched)
  }

  predicate NextOf(w: W, m: DataMessage) { m.uid == w.uid && m.tid == SeqOf(w, TopicOf(m)) + 1 < MAX_U64 }

  lemma RoundBegins(w: W, m: DataMessage, g: nat)
    requires Idle(w, g) && NextOf(w, m)
    ensures Enabled(w, BeginOf(m, [w.me])) && Next(w, BeginOf(m, [w.me])) == Calling(w, m)
  {
    hide MakeCompositeKey;
  }

  lemma RoundPushes(w: W, m: DataMessage, g: nat)
    requires Idle(w, g)
    ensures Enabled(Calling(w, m), PushNext) && Next(Calling(w, m), PushNext) == Pushed(w, m, g)
  {
    FramePasses(w.streams[g].sys, Reliable(m));
    hide P.Next, EnqueueSection;
    assert [w.me][1..] == [];
    assert map[][w.me := Accepted] == map[w.me := Accepted];
  }

  lemma RoundCommits(w: W, m: DataMessage, g: nat)
    requires g < |w.streams|
    ensures Enabled(Pushed(w, m, g), End) && Next(Pushed(w, m, g), End) == Committed(w, m, g)
  {
    hide P.Next;
  }

  lemma RoundReads(w: W, m: DataMessage, g: nat)
    requires Idle(w, g)
    ensures var w3, kick, done := Committed(w, m, g), React(g, P.Kick), React(g, P.WriteDone(true));
            && Enabled(w3, kick) && Enabled(Next(w3, kick), Read)
            && Enabled(Next(Next(w3, kick), Read), done)
            && Next(Next(Next(w3, kick), Read), done) == Rounded(w, m, g)
  {
    FramePasses(w.streams[g].sys, Reliable(m));
    hide P.Next, P.Enabled, Passed, Handle, TopicOf;
    var w4 := Next(Committed(w, m, g), React(g, P.Kick));
    assert w4.streams[g].sys.r.started[w.pos] == Reliable(m);
    var w5 := Next(w4, Read);
    assert w5.streams == w4.streams;
    assert Next(w5, React(g, P.WriteDone(true))).streams == Rounded(w, m, g).streams;
  }

  lemma RoundIdle(w: W, m: DataMessage, g: nat)
    requires Idle(w, g)
    ensures Idle(Rounded(w, m, g), g)
  {
    hide Handle, TopicOf;
  }

  /** A publish in an idle state is accepted, written and read, and is what the node's
      receive state makes of it. */
  lemma Round(w: W, m: DataMessage, g: nat)
    requires Idle(w, g) && NextOf(w, m)
    ensures Possible(w, RoundSteps(m, w.me, g)) && After(w, RoundSteps(m, w.me, g)) == Rounded(w, m, g)
    ensures Idle(Rounded(w, m, g), g)
  {
    RoundBegins(w, m, g);
    RoundPushes(w, m, g);
    RoundIdle(w, m, g);
    assert g < |w.streams|;
    RoundCommits(w, m, g);
    RoundReads(w, m, g);
    hide Next, Enabled, Idle, Calling, Pushed, Committed, Rounded, BeginOf, NextOf;
    var kick, done := React(g, P.Kick), React(g, P.WriteDone(true));
    var w3 := Committed(w, m, g);
    var w4 := Next(w3, kick);
    OneStep(Next(w4, Read), done);
    StepOpens(w4, Read, [done]);
    StepOpens(w3, kick, [Read] + [done]);
    StepOpens(Pushed(w, m, g), End, [kick] + ([Read] + [done]));
    StepOpens(Calling(w, m), PushNext, [End] + ([kick] + ([Read] + [done])));
    StepOpens(w, BeginOf(m, [w.me]), [PushNext] + ([End] + ([kick] + ([Read] + [done]))));
  }

  // ----------------------------------------------------- where a cleanup loses

  lemma CleanupStep(w: W, g: nat)
    requires Idle(w, g)
    ensures var s := Cleanup({w.uid});
            && Enabled(w, s) && Next(w, s) == w.(rx := Prune(w.rx, {w.uid})) && Idle(Next(w, s), g)
  {
  }

  /** What the node does with a publisher's first two frames if it times it out between. */
  lemma SecondIsStranded(uid: nat, a: DataMessage, b: DataMessage)
    requires a.uid == b.uid == uid && a.tid == 1 && b.tid == 2 && TopicOf(a) == TopicOf(b)
    ensures var o := Handle(RxState(map[], {uid}), Reliable(a));
            o.dispatched == [a] && Stranded(Prune(o.state, {uid}), b)
  {
    PrefixIdentifiesUid(uid, TopicOf(b), uid);
  }

  lemma FirstDialedIdle(uid: nat, me: SubscriberKey, limits: Limits)
    requires Coherent(limits)
    ensures Idle(FirstDialed(uid, me, limits), 0)
  {
  }

  /** Acceptance is not enough: the subscriber is connected throughout, its stream accepts
      both frames of a topic, both are Sent, written and read; but the node times the
      publisher out in between, and the second is not delivered. */
  lemma CleanupDefeatsAcceptance(uid: nat, me: SubscriberKey, limits: Limits, a: DataMessage, b: DataMessage)
    requires Coherent(limits) && a.uid == b.uid == uid && a.tid == 1 && b.tid == 2 && TopicOf(a) == TopicOf(b)
    ensures var steps := [Dial(me, uid), Register(0)]
                       + (RoundSteps(a, me, 0) + ([Cleanup({uid})] + RoundSteps(b, me, 0)));
            && Possible(Start(uid, me, limits), steps)
            && var e := After(Start(uid, me, limits), steps);
               && Idle(e, 0) && e.streams[0].sys.accepted == [Reliable(a), Reliable(b)]
               && e.sent == [a, b] && e.out == [a]
  {
    hide Start, FirstDialed, Idle, Handle, Prune, Next, Enabled, Possible, After,
         RoundSteps, Rounded, NextOf, Stranded, TopicOf;
    var w0 := FirstDialed(uid, me, limits);
    FirstDialedIdle(uid, me, limits);
    FirstDialRuns(uid, me, limits);
    SecondIsStranded(uid, a, b);
    FirstsAre(uid, me, limits, a);
    Round(w0, a, 0);
    RoundAdds(w0, a, 0);
    var w1 := Rounded(w0, a, 0);
    CleanupStep(w1, 0);
    var w2 := w1.(rx := Prune(w1.rx, {uid}));
    SecondOf(w1, b);
    Round(w2, b, 0);
    RoundAdds(w2, b, 0);
    StrandedIsHeld(w2.rx, b);
    StepOpens(w1, Cleanup({uid}), RoundSteps(b, me, 0));
    RunJoins(w0, RoundSteps(a, me, 0), [Cleanup({uid})] + RoundSteps(b, me, 0));
    RunJoins(Start(uid, me, limits), [Dial(me, uid), Register(0)],
             RoundSteps(a, me, 0) + ([Cleanup({uid})] + RoundSteps(b, me, 0)));
    var e := Rounded(w2, b, 0);
    assert e.sent == [a] + [b] && e.out == [a] + [];
    assert e.streams[0].sys.accepted == [Reliable(a)] + [Reliable(b)];
  }

  lemma FirstsAre(uid: nat, me: SubscriberKey, limits: Limits, a: DataMessage)
    requires a.uid == uid && a.tid == 1
    ensures var w := FirstDialed(uid, me, limits);
            && NextOf(w, a) && w.uid == uid && w.me == me && w.rx == RxState(map[], {uid})
            && w.sent == [] && w.out == [] && |w.streams| == 1 && w.streams[0].sys.accepted == []
  {
    hide MakeCompositeKey;
  }

  lemma SecondOf(w: W, b: DataMessage)
    requires b.uid == w.uid && TopicOf(b) in w.seqs && b.tid == w.seqs[TopicOf(b)] + 1 < MAX_U64
    ensures NextOf(w.(rx := Prune(w.rx, {w.uid})), b)
  {
    hide Prune, MakeCompositeKey;
  }

  lemma RoundAdds(w: W, m: DataMessage, g: nat)
    requires g < |w.streams|
    ensures var e, o := Rounded(w, m, g), Handle(w.rx, Reliable(m));
            && e.uid == w.uid && e.me == w.me && |e.streams| == |w.streams| && e.rx == o.state
            && e.sent == w.sent + [m] && e.out == w.out + o.dispatched
            && e.streams[g].sys.accepted == w.streams[g].sys.accepted + [Reliable(m)]
            && TopicOf(m) in e.seqs && e.seqs[TopicOf(m)] == m.tid
  {
    hide Handle, TopicOf;
  }

  // ------------------------------------------------ where a late joiner loses

  /** What the node does with the first frames of two topics after a dial. */
  lemma SecondTopicStranded(a: DataMessage, b: DataMessage)
    requires a.uid == b.uid && a.tid < MAX_U64 && TopicOf(a) != TopicOf(b) && 1 < b.tid < 1 + RELIABLE_WINDOW_SIZE
    ensures var o := Handle(RxState(map[], {a.uid}), Reliable(a)); o.dispatched == [a] && Stranded(o.state, b)
  {
    WindowKeyInjective(a.uid, TopicOf(a), b.uid, TopicOf(b));
    hide MakeCompositeKey, UidPrefix;
  }

  /** A second topic stalls without a loss or a cleanup before: after a dial both topics are
      caught up, the first frame of one spends the marker, and the other, past tid 1 by
      less than a window, delivers nothing. */
  lemma SecondTopicStalls(w: W, g: nat, a: DataMessage, b: DataMessage)
    requires Idle(w, g) && w.rx == RxState(map[], {w.uid}) && NextOf(w, a) && NextOf(w, b)
    requires TopicOf(a) != TopicOf(b) && 1 < b.tid < 1 + RELIABLE_WINDOW_SIZE
    ensures CaughtUp(w, TopicOf(b))
    ensures var steps := RoundSteps(a, w.me, g) + RoundSteps(b, w.me, g);
            && Possible(w, steps)
            && var e := After(w, steps);
               && Idle(e, g) && e.sent == w.sent + [a, b] && e.out == w.out + [a]
               && e.streams[g].sys.accepted == w.streams[g].sys.accepted + [Reliable(a), Reliable(b)]
  {
    IdleCaughtUp(w, g, TopicOf(b));
    SecondTopicStranded(a, b);
    OtherTopicNext(w, a, b, g);
    IdleStream(w, g);
    hide Idle, Handle, Next, Enabled, Possible, After, RoundSteps, Rounded, NextOf, Stranded, TopicOf, CaughtUp;
    var w1 := Rounded(w, a, g);
    Round(w, a, g);
    RoundAdds(w, a, g);
    Round(w1, b, g);
    RoundAdds(w1, b, g);
    StrandedIsHeld(w1.rx, b);
    RunJoins(w, RoundSteps(a, w.me, g), RoundSteps(b, w.me, g));
    var e := Rounded(w1, b, g);
    assert e.sent == w.sent + [a] + [b] && e.out == w.out + [a] + [];
    assert e.streams[g].sys.accepted == w.streams[g].sys.accepted + [Reliable(a)] + [Reliable(b)];
  }

  lemma IdleStream(w: W, g: nat)
    requires Idle(w, g)
    ensures g < |w.streams|
  {
  }

  lemma IdleCaughtUp(w: W, g: nat, t: string)
    requires Idle(w, g) && w.rx.windows == map[]
    ensures CaughtUp(w, t)
  {
    assert Pending(w) == [];
  }

  lemma OtherTopicNext(w: W, a: DataMessage, b: DataMessage, g: nat)
    requires g < |w.streams| && NextOf(w, a) && NextOf(w, b) && TopicOf(a) != TopicOf(b)
    ensures NextOf(Rounded(w, a, g), b)
  {
    hide Handle, TopicOf, Passed;
  }

  /** The state when another subscriber alone has taken a topic's first frame. */
  function OtherServed(uid: nat, me: SubscriberKey, other: SubscriberKey, limits: Limits): W {
    Start(uid, me, limits).(streams := [Stream(other, P.Init(limits), true, false)], table := map[other := 0])
  }

  function OtherTook(uid: nat, me: SubscriberKey, other: SubscriberKey, limits: Limits, m: DataMessage): W {
    Start(uid, me, limits).(
      streams := [Stream(other, P.Next(P.Init(limits), P.Push(Reliable(m))), true, false)],
      table := map[other := 0], seqs := map[TopicOf(m) := 1], sent := [m])
  }

  function JoinSteps(m: DataMessage, other: SubscriberKey): seq<Step> {
    [Dial(other, m.uid)] + ([Register(0)] + ([BeginOf(m, [other])] + ([PushNext] + [End])))
  }

  lemma OtherDials(uid: nat, me: SubscriberKey, other: SubscriberKey, limits: Limits)
    requires me != other
    ensures var w := Start(uid, me, limits);
            && Enabled(w, Dial(other, uid)) && Enabled(Next(w, Dial(other, uid)), Register(0))
            && Next(Next(w, Dial(other, uid)), Register(0)) == OtherServed(uid, me, other, limits)
  {
  }

  lemma OtherTakes(uid: nat, me: SubscriberKey, other: SubscriberKey, limits: Limits, m: DataMessage)
    requires Coherent(limits) && m.uid == uid && m.tid == 1
    ensures var w, begin := OtherServed(uid, me, other, limits), BeginOf(m, [other]);
            && Enabled(w, begin) && Enabled(Next(w, begin), PushNext)
            && Enabled(Next(Next(w, begin), PushNext), End)
            && Next(Next(Next(w, begin), PushNext), End) == OtherTook(uid, me, other, limits, m)
  {
    hide P.Next, EnqueueSection, MakeCompositeKey;
    InitAccepts(limits, Reliable(m));
    assert [other][1..] == [];
  }

  lemma InitAccepts(limits: Limits, f: Frame)
    requires Coherent(limits)
    ensures EnqueueSection(P.Init<Frame>(limits).r, f).status == Accepted
  {
  }

  lemma OtherTookRuns(uid: nat, me: SubscriberKey, other: SubscriberKey, limits: Limits, m: DataMessage)
    requires Coherent(limits) && me != other && m.uid == uid && m.tid == 1
    ensures Possible(Start(uid, me, limits), JoinSteps(m, other))
    ensures After(Start(uid, me, limits), JoinSteps(m, other)) == OtherTook(uid, me, other, limits, m)
  {
    hide Next, Enabled, Start, OtherServed, OtherTook, BeginOf, Possible, After;
    OtherDials(uid, me, other, limits);
    OtherTakes(uid, me, other, limits, m);
    var w0, begin := Start(uid, me, limits), BeginOf(m, [other]);
    var w1 := Next(w0, Dial(other, uid));
    var w2 := OtherServed(uid, me, other, limits);
    var w3 := Next(w2, begin);
    OneStep(Next(w3, PushNext), End);
    StepOpens(w3, PushNext, [End]);
    StepOpens(w2, begin, [PushNext] + [End]);
    StepOpens(w1, Register(0), [begin] + ([PushNext] + [End]));
    StepOpens(w0, Dial(other, uid), [Register(0)] + ([begin] + ([PushNext] + [End])));
  }

  lemma JoinsIdle(uid: nat, me: SubscriberKey, other: SubscriberKey, limits: Limits, m: DataMessage)
    requires Coherent(limits) && me != other && m.uid == uid && m.tid == 1
    ensures var w := OtherTook(uid, me, other, limits, m);
            && Enabled(w, Dial(me, uid)) && Enabled(Next(w, Dial(me, uid)), Register(1))
            && var e := Next(Next(w, Dial(me, uid)), Register(1));
               && Idle(e, 1) && e.rx == RxState(map[], {uid}) && e.uid == uid && e.me == me
               && e.seqs == map[TopicOf(m) := 1] && e.sent == [m] && e.out == []
               && e.streams[1].sys.accepted == []
  {
    hide P.Next, MakeCompositeKey;
    assert NoteEstablished(RxState(map[], {}), uid) == RxState(map[], {uid});
  }

  /** From the start: the subscriber joins when one topic `TopicOf(b1)` has had a frame, then
      takes and reads the first frame of another topic and the second of that one. Both are
      Sent, neither a loss nor a cleanup came before, and `b2` is not delivered. */
  lemma LateJoinerStalls(uid: nat, me: SubscriberKey, other: SubscriberKey, limits: Limits,
                         a: DataMessage, b1: DataMessage, b2: DataMessage)
    requires Coherent(limits) && me != other && a.uid == b1.uid == b2.uid == uid
    requires a.tid == b1.tid == 1 && b2.tid == 2 && TopicOf(b1) == TopicOf(b2) != TopicOf(a)
    ensures var before := JoinSteps(b1, other) + [Dial(me, uid), Register(1)];
            var rounds := RoundSteps(a, me, 1) + RoundSteps(b2, me, 1);
            && Possible(Start(uid, me, limits), before) && Possible(Start(uid, me, limits), before + rounds)
            && CaughtUp(After(Start(uid, me, limits), before), TopicOf(b2))
            && var e := After(Start(uid, me, limits), before + rounds);
               && Idle(e, 1) && e.streams[1].sys.accepted == [Reliable(a), Reliable(b2)]
               && e.sent == [b1, a, b2] && e.out == [a]
  {
    hide Start, OtherTook, Idle, Next, Enabled, Possible, After, RoundSteps, JoinSteps, CaughtUp, MakeCompositeKey;
    var w0, w1 := Start(uid, me, limits), OtherTook(uid, me, other, limits, b1);
    OtherTookRuns(uid, me, other, limits, b1);
    JoinsIdle(uid, me, other, limits, b1);
    TwoSteps(w1, Dial(me, uid), Register(1));
    var w2 := Next(Next(w1, Dial(me, uid)), Register(1));
    RunJoins(w0, JoinSteps(b1, other), [Dial(me, uid), Register(1)]);
    SecondTopicStalls(w2, 1, a, b2);
    RunJoins(w0, JoinSteps(b1, other) + [Dial(me, uid), Register(1)], RoundSteps(a, me, 1) + RoundSteps(b2, me, 1));
    assert [b1] + [a, b2] == [b1, a, b2];
  }

  // -------------------------------------------------- where the probe is too early

  /** An outbox bound of 2: one frame may be queued. */
  const TIGHT := Limits(2, 1, 0)

  /** Two subscribers registered. */
  function TwoDialed(uid: nat, me: SubscriberKey, other: SubscriberKey): W {
    FirstDialed(uid, me, TIGHT).(
      streams := [Stream(me, P.Init(TIGHT), true, false), Stream(other, P.Init(TIGHT), true, false)],
      table := map[me := 0, other := 1])
  }

  lemma TwoDialedRuns(uid: nat, me: SubscriberKey, other: SubscriberKey)
    requires me != other
    ensures var steps := [Dial(me, uid), Register(0)] + [Dial(other, uid), Register(1)];
            Possible(Start(uid, me, TIGHT), steps) && After(Start(uid, me, TIGHT), steps) == TwoDialed(uid, me, other)
  {
    hide Next, Enabled, Start, FirstDialed, TwoDialed, Possible, After;
    FirstDialRuns(uid, me, TIGHT);
    SecondDial(uid, me, other);
    TwoSteps(FirstDialed(uid, me, TIGHT), Dial(other, uid), Register(1));
    RunJoins(Start(uid, me, TIGHT), [Dial(me, uid), Register(0)], [Dial(other, uid), Register(1)]);
  }

  lemma SecondDial(uid: nat, me: SubscriberKey, other: SubscriberKey)
    requires me != other
    ensures var w := FirstDialed(uid, me, TIGHT);
            && Enabled(w, Dial(other, uid)) && Enabled(Next(w, Dial(other, uid)), Register(1))
            && Next(Next(w, Dial(other, uid)), Register(1)) == TwoDialed(uid, me, other)
  {
    var w := FirstDialed(uid, me, TIGHT);
    var w1 := Next(w, Dial(other, uid));
    assert w1.streams == [Stream(me, P.Init(TIGHT), true, false), Stream(other, P.Init(TIGHT), false, false)];
    assert w1 == TwoDialed(uid, me, other).(streams := w1.streams, table := map[me := 0]);
    assert map[me := 0][other := 1] == map[me := 0, other := 1];
  }

  /** `me`'s stream once a presence frame fills it, and once it has refused a push. */
  function Full(latched: bool): P.Sys<Frame> {
    P.Init(TIGHT).(
      r := NewReactor<Frame>(TIGHT).(outbox := [Frame.Presence], backpressured := latched),
      accepted := [Frame.Presence], kickers := 1)
  }

  lemma PresenceFills(m: DataMessage)
    ensures P.Next(P.Init<Frame>(TIGHT), P.Push(Frame.Presence)) == Full(false)
    ensures P.Next(Full(false), P.Push(Reliable(m))) == Full(true)
    ensures EnqueueSection(Full(false).r, Reliable(m)).status == OutboxStatus.Backpressured
    ensures EnqueueSection(NewReactor<Frame>(TIGHT), Reliable(m)).status == Accepted
  {
    hide P.Next, EnqueueSection;
    EmptyAccepts(Frame.Presence);
    EmptyAccepts(Reliable(m));
    FullRefuses(m);
    PushIs(P.Init<Frame>(TIGHT), Frame.Presence);
    PushIs(Full(false), Reliable(m));
    var none: seq<Frame> := [];
    assert none + [Frame.Presence] == [Frame.Presence];
  }

  lemma PushIs(s: P.Sys<Frame>, f: Frame)
    ensures var e := EnqueueSection(s.r, f);
            P.Next(s, P.Push(f)) ==
              s.(r := e.r, accepted := if e.status == Accepted then s.accepted + [f] else s.accepted,
                                       kickers := s.kickers + P.Count(e.needWrite))
  {
    hide EnqueueSection;
  }

  lemma EmptyAccepts(f: Frame)
    ensures EnqueueSection(NewReactor<Frame>(TIGHT), f)
          == EnqueueResult(NewReactor<Frame>(TIGHT).(outbox := [f]), Accepted, true)
  {
    var none: seq<Frame> := [];
    assert none + [f] == [f];
  }

  lemma FullRefuses(m: DataMessage)
    ensures EnqueueSection(Full(false).r, Reliable(m)) == EnqueueResult(Full(true).r, OutboxStatus.Backpressured, false)
  {
  }

  function BeginOf(m: DataMessage, subs: seq<SubscriberKey>): Step {
    Begin(m.topicName, m.messageType, m.payload, subs)
  }

  /** The states of a call whose probe of `me` succeeds just before a presence push. */
  function Probed(uid: nat, me: SubscriberKey, other: SubscriberKey, m: DataMessage): W {
    TwoDialed(uid, me, other).(call := Some(Call(m, [me, other], map[], false)))
  }

  function Filled(uid: nat, me: SubscriberKey, other: SubscriberKey, m: DataMessage): W {
    Probed(uid, me, other, m).(streams :=
      [Stream(me, Full(false), true, false), Stream(other, P.Init(TIGHT), true, false)])
  }

  function RefusedByMe(uid: nat, me: SubscriberKey, other: SubscriberKey, m: DataMessage): W {
    Probed(uid, me, other, m).(
      streams := [Stream(me, Full(true), true, false), Stream(other, P.Init(TIGHT), true, false)],
      call := Some(Call(m, [other], map[me := OutboxStatus.Backpressured], false)))
  }

  function TakenByOther(uid: nat, me: SubscriberKey, other: SubscriberKey, m: DataMessage): W {
    Probed(uid, me, other, m).(
      streams := [Stream(me, Full(true), true, false),
                  Stream(other, P.Next(P.Init(TIGHT), P.Push(Reliable(m))), true, false)],
      call := Some(Call(m, [], map[me := OutboxStatus.Backpressured, other := Accepted], true)))
  }

  lemma ProbeStep(uid: nat, me: SubscriberKey, other: SubscriberKey, m: DataMessage)
    requires me != other && m.uid == uid && m.tid == 1
    ensures var w := TwoDialed(uid, me, other); var s := BeginOf(m, [me, other]);
            Enabled(w, s) && Next(w, s) == Probed(uid, me, other, m)
  {
    hide MakeCompositeKey;
  }

  lemma FillStep(uid: nat, me: SubscriberKey, other: SubscriberKey, m: DataMessage)
    ensures var w := Probed(uid, me, other, m);
            Enabled(w, Step.Presence(0)) && Next(w, Step.Presence(0)) == Filled(uid, me, other, m)
  {
    PresenceFills(m);
    hide P.Next, Full;
    var w := Probed(uid, me, other, m);
    assert Next(w, Step.Presence(0)).streams == Filled(uid, me, other, m).streams;
  }

  lemma RefuseStep(uid: nat, me: SubscriberKey, other: SubscriberKey, m: DataMessage)
    requires me != other
    ensures var w := Filled(uid, me, other, m);
            Enabled(w, PushNext) && Next(w, PushNext) == RefusedByMe(uid, me, other, m)
  {
    PresenceFills(m);
    hide P.Next, Full, EnqueueSection;
    var w := Filled(uid, me, other, m);
    assert [me, other][1..] == [other];
    assert Next(w, PushNext).streams == RefusedByMe(uid, me, other, m).streams;
  }

  lemma TakeStep(uid: nat, me: SubscriberKey, other: SubscriberKey, m: DataMessage)
    requires me != other
    ensures var w := RefusedByMe(uid, me, other, m);
            Enabled(w, PushNext) && Next(w, PushNext) == TakenByOther(uid, me, other, m)
  {
    PresenceFills(m);
    hide P.Next, Full, EnqueueSection;
    var w := RefusedByMe(uid, me, other, m);
    assert [other][1..] == [];
    assert map[me := OutboxStatus.Backpressured][other := Accepted]
        == map[me := OutboxStatus.Backpressured, other := Accepted];
    assert Next(w, PushNext).streams == TakenByOther(uid, me, other, m).streams;
  }

  function LateSteps(m: DataMessage, subs: seq<SubscriberKey>): seq<Step> {
    [BeginOf(m, subs)] + ([Step.Presence(0)] + ([PushNext] + ([PushNext] + [End])))
  }

  lemma LateCall(uid: nat, me: SubscriberKey, other: SubscriberKey, m: DataMessage)
    requires me != other && m.uid == uid && m.tid == 1
    ensures var w, steps := TwoDialed(uid, me, other), LateSteps(m, [me, other]);
            && Possible(w, steps) && !AllTaken(w, steps, TopicOf(m))
            && var e := After(w, steps);
               Serving(e, 0) && e.sent == [m] && e.streams[0].sys.accepted == [Frame.Presence]
  {
    hide Next, Enabled, Possible, After, TwoDialed, Probed, Filled, RefusedByMe, TakenByOther, AllTaken, TakenStep;
    var w0, w4 := TwoDialed(uid, me, other), TakenByOther(uid, me, other, m);
    ProbeStep(uid, me, other, m);
    FillStep(uid, me, other, m);
    RefuseStep(uid, me, other, m);
    TakeStep(uid, me, other, m);
    EndUntaken(uid, me, other, m);
    OneStep(w4, End);
    StepOpens(RefusedByMe(uid, me, other, m), PushNext, [End]);
    StepOpens(Filled(uid, me, other, m), PushNext, [PushNext] + [End]);
    StepOpens(Probed(uid, me, other, m), Step.Presence(0), [PushNext] + ([PushNext] + [End]));
    StepOpens(w0, BeginOf(m, [me, other]), [Step.Presence(0)] + ([PushNext] + ([PushNext] + [End])));
    assert [End] + [] == [End];
    NotTaken(w4, End, [], TopicOf(m));
    NotTaken(RefusedByMe(uid, me, other, m), PushNext, [End], TopicOf(m));
    NotTaken(Filled(uid, me, other, m), PushNext, [PushNext] + [End], TopicOf(m));
    NotTaken(Probed(uid, me, other, m), Step.Presence(0), [PushNext] + ([PushNext] + [End]), TopicOf(m));
    NotTaken(w0, BeginOf(m, [me, other]), [Step.Presence(0)] + ([PushNext] + ([PushNext] + [End])), TopicOf(m));
  }

  /** Probing before the call is too early: in this run `me` is served and sendable when
      the call begins, a presence frame then takes its room, and the frame is Sent
      although `me` has not accepted it. */
  lemma PresenceDefeatsProbe(uid: nat, me: SubscriberKey, other: SubscriberKey, m: DataMessage)
    requires me != other && m.uid == uid && m.tid == 1
    ensures var start, before := Start(uid, me, TIGHT), [Dial(me, uid), Register(0)] + [Dial(other, uid), Register(1)];
            var steps := LateSteps(m, [me, other]);
            && Possible(start, before) && Possible(start, before + steps)
            && (var w := After(start, before);
                Serving(w, 0) && IsSendable(w.streams[0].sys.r) && Possible(w, steps)
                && !AllTaken(w, steps, TopicOf(m)))
            && (var e := After(start, before + steps);
                Serving(e, 0) && e.sent == [m] && e.streams[0].sys.accepted == [Frame.Presence])
  {
    hide Next, Enabled, Start, TwoDialed, Possible, After, AllTaken, LateSteps;
    TwoDialedRuns(uid, me, other);
    EndUntaken(uid, me, other, m);
    LateCall(uid, me, other, m);
    RunJoins(Start(uid, me, TIGHT), [Dial(me, uid), Register(0)] + [Dial(other, uid), Register(1)],
             LateSteps(m, [me, other]));
  }

  /** An untaken commit anywhere in a run shows. */
  lemma NotTaken(w: W, s: Step, rest: seq<Step>, t: string)
    requires Enabled(w, s) && Possible(w, [s] + rest) && Possible(Next(w, s), rest)
    requires !TakenStep(w, s, t) || !AllTaken(Next(w, s), rest, t)
    ensures !AllTaken(w, [s] + rest, t)
  {
    hide Next, Enabled, TakenStep;
    assert ([s] + rest)[1..] == rest;
  }

  lemma EndUntaken(uid: nat, me: SubscriberKey, other: SubscriberKey, m: DataMessage)
    requires me != other
    ensures var w0 := TwoDialed(uid, me, other); Serving(w0, 0) && IsSendable(w0.streams[0].sys.r)
    ensures var w := TakenByOther(uid, me, other, m);
            && Enabled(w, End) && !TakenStep(w, End, TopicOf(m))
            && var e := Next(w, End); Serving(e, 0) && e.sent == [m] && e.streams[0].sys.accepted == [Frame.Presence]
    ensures Possible(Next(TakenByOther(uid, me, other, m), End), [])
  {
    hide P.Next, MakeCompositeKey;
  }
}
