/** The end-to-end theorem: the window on top of the ordered reads. */
module EndToEnd {
  import opened Keys
  import opened Numbers
  import opened Window
  import opened Receiver
  import opened Reactor
  import opened World
  import opened Ordering
  import P = ReactorProtocol

  function LastTid(ms: seq<DataMessage>): nat { if ms == [] then 0 else ms[|ms| - 1].tid }

  function BufferOf(rx: RxState, uid: nat, t: string): seq<DataMessage> {
    var key := WindowKey(uid, t);
    if key in rx.windows then rx.windows[key].buffer else []
  }

  /** Delivered frames of `t` ascend, and nothing delivered or held back is newer than
      the newest tid read, `top`. */
  ghost predicate Settled(rx: RxState, uid: nat, out: seq<DataMessage>, t: string, top: nat) {
    Ascending(On(t, out)) && AllBelow(On(t, out), top + 1) && AllBelow(BufferOf(rx, uid, t), top + 1)
  }

  ghost predicate Delivered(w: W, t: string) { Settled(w.rx, w.uid, w.out, t, LastTid(Of(t, w.readLog))) }

  /** A frame newer than everything held back is delivered alone or held back. */
  lemma NewerArrival(win: RxWindow, m: DataMessage)
    requires Valid(win) && 1 <= m.tid < MAX_U64 && AllBelow(win.buffer, m.tid)
    ensures var o := Arrive(win, m);
            (o.dispatched == [] || o.dispatched == [m]) && AllBelow(o.window.buffer, m.tid + 1)
  {
    EmplaceAt(win.buffer, m);
    if win.buffer != [] {
      assert win.buffer[0] in win.buffer;
    }
  }

  /** The same, through the node's whole receive state. */
  lemma NewerHandled(rx: RxState, m: DataMessage)
    requires ValidRx(rx) && 1 <= m.tid < MAX_U64 && AllBelow(BufferOf(rx, m.uid, TopicOf(m)), m.tid)
    ensures var o := Handle(rx, Reliable(m));
            && (o.dispatched == [] || o.dispatched == [m]) && ValidRx(o.state)
            && AllBelow(BufferOf(o.state, m.uid, TopicOf(m)), m.tid + 1)
  {
    HandleKeepsValid(rx, Reliable(m));
    NewerArrival(WindowFor(rx, m), m);
  }

  /** A frame of another topic may empty this topic's buffer, never fill it. */
  lemma OtherTopicHandled(rx: RxState, m: DataMessage, t: string)
    requires TopicOf(m) != t
    ensures var b := BufferOf(Handle(rx, Reliable(m)).state, m.uid, t); b == [] || b == BufferOf(rx, m.uid, t)
  {
    WindowKeyInjective(m.uid, TopicOf(m), m.uid, t);
  }

  lemma SameTopicSettles(rx: RxState, out: seq<DataMessage>, m: DataMessage, top: nat)
    requires ValidRx(rx) && 1 <= m.tid < MAX_U64 && top < m.tid && Settled(rx, m.uid, out, TopicOf(m), top)
    ensures var o := Handle(rx, Reliable(m));
            && (o.dispatched == [] || o.dispatched == [m]) && ValidRx(o.state)
            && Settled(o.state, m.uid, out + o.dispatched, TopicOf(m), m.tid)
  {
    var t := TopicOf(m);
    var o := Handle(rx, Reliable(m));
    hide Handle, ValidRx, TopicOf, BufferOf, Ascending, AllBelow, On;
    AllBelowWeaken(BufferOf(rx, m.uid, t), top + 1, m.tid);
    AllBelowWeaken(On(t, out), top + 1, m.tid + 1);
    NewerHandled(rx, m);
    OnAppend(t, out, m);
    AscendingAppend(On(t, out), m, top + 1);
    assert out + [] == out;
  }

  lemma OtherTopicSettled(rx: RxState, out: seq<DataMessage>, m: DataMessage, dispatched: seq<DataMessage>,
                          t: string, top: nat)
    requires TopicOf(m) != t && Settled(rx, m.uid, out, t, top)
    requires dispatched == [] || dispatched == [m]
    ensures Settled(Handle(rx, Reliable(m)).state, m.uid, out + dispatched, t, top)
  {
    OtherTopicHandled(rx, m, t);
    OnAppend(t, out, m);
    assert out + [] == out;
  }

  /** Reading the data frame `m` keeps every topic settled. */
  lemma ReadSettles(rx: RxState, out: seq<DataMessage>, got: seq<Frame>, m: DataMessage, t: string)
    requires ValidRx(rx) && 1 <= m.tid < MAX_U64
    requires Settled(rx, m.uid, out, t, LastTid(Of(t, got)))
    requires Settled(rx, m.uid, out, TopicOf(m), LastTid(Of(TopicOf(m), got)))
    requires Ascending(Of(TopicOf(m), got + [Reliable(m)]))
    ensures var o := Handle(rx, Reliable(m));
            && ValidRx(o.state) && (o.dispatched == [] || o.dispatched == [m])
            && Settled(o.state, m.uid, out + o.dispatched, t, LastTid(Of(t, got + [Reliable(m)])))
  {
    var topic := TopicOf(m);
    var dispatched := Handle(rx, Reliable(m)).dispatched;
    hide Handle, Of, ValidRx, TopicOf, Settled, LastTid, Ascending;
    OfAppend(topic, got, Reliable(m));
    NewestLast(Of(topic, got), m);
    SameTopicSettles(rx, out, m, LastTid(Of(topic, got)));
    if topic != t {
      OfAppend(t, got, Reliable(m));
      OtherTopicSettled(rx, out, m, dispatched, t, LastTid(Of(t, got)));
      assert Of(t, got) + [] == Of(t, got);
    }
  }

  /** `w'` is `w` after its subscriber read one frame. */
  predicate ReadOf(w: W, w': W) {
    && Readable(w) && w'.uid == w.uid
    && w'.readLog == w.readLog + [NextFrame(w)]
    && w'.rx == Handle(w.rx, NextFrame(w)).state && w'.out == w.out + Handle(w.rx, NextFrame(w)).dispatched
  }

  lemma ReadIs(w: W, s: Step)
    requires Enabled(w, s) && s.Read?
    ensures ReadOf(w, Next(w, s))
  {
    ClientEffects(w, s);
    CommitEffects(w, s);
    hide Next, Handle;
  }

  lemma DataDelivers(w: W, w': W, t: string)
    requires ReadOf(w, w') && NextFrame(w).Reliable? && ValidRx(w.rx) && Delivered(w, t)
    requires var m := NextFrame(w).data;
             Known(w, m) && Delivered(w, TopicOf(m)) && Ascending(Of(TopicOf(m), w.readLog + [NextFrame(w)]))
    ensures Delivered(w', t) && ValidRx(w'.rx) && (w'.out == w.out || w'.out == w.out + [NextFrame(w).data])
  {
    hide Handle, Of, On, Settled, ValidRx, Ascending, LastTid;
    ReadSettles(w.rx, w.out, w.readLog, NextFrame(w).data, t);
    assert w.out + [] == w.out;
  }

  lemma PresenceDelivers(w: W, w': W, t: string)
    requires ReadOf(w, w') && NextFrame(w).Presence? && ValidRx(w.rx) && Delivered(w, t)
    ensures Delivered(w', t) && ValidRx(w'.rx) && w'.out == w.out
  {
    PresenceIgnored(w.rx);
    OfAppend(t, w.readLog, NextFrame(w));
    assert Of(t, w.readLog) + [] == Of(t, w.readLog);
    assert w.out + [] == w.out;
  }

  lemma PresenceIgnored(rx: RxState)
    ensures Handle(rx, Frame.Presence) == RxOutcome(rx, [])
  {
  }

  lemma NewestLast(ms: seq<DataMessage>, m: DataMessage)
    requires Ascending(ms + [m]) && 1 <= m.tid
    ensures LastTid(ms) < m.tid == LastTid(ms + [m])
  {
    if ms != [] {
      assert (ms + [m])[|ms| - 1] == ms[|ms| - 1] && (ms + [m])[|ms|] == m;
    }
  }

  /** Resets and cleanups at most empty buffers. */
  lemma ResetSettles(rx: RxState, uid: nat, out: seq<DataMessage>, t: string, top: nat, dialed: nat, uids: set<nat>)
    requires ValidRx(rx) && Settled(rx, uid, out, t, top)
    ensures ValidRx(NoteEstablished(rx, dialed)) && Settled(NoteEstablished(rx, dialed), uid, out, t, top)
    ensures ValidRx(Prune(rx, uids)) && Settled(Prune(rx, uids), uid, out, t, top)
  {
    hide On, StartsWith;
  }

  /** Steps other than a read deliver nothing and at most empty buffers. */
  lemma OthersDeliverNothing(w: W, s: Step, t: string)
    requires Enabled(w, s) && !s.Read? && ValidRx(w.rx) && Delivered(w, t)
    ensures Delivered(Next(w, s), t) && ValidRx(Next(w, s).rx) && Next(w, s).out == w.out
  {
    hide Next, Enabled, NoteEstablished, Prune, Handle, Settled, ValidRx, LastTid, Of;
    ClientEffects(w, s);
    CommitEffects(w, s);
    ResetSettles(w.rx, w.uid, w.out, t, LastTid(Of(t, w.readLog)),
                 if s.Dial? then s.noted else 0, if s.Cleanup? then s.uids else {});
  }

  // ----------------------------------------------------------------- the theorem

  ghost predicate TopicInv(w: W, t: string) {
    Tracked(w, t) && Delivered(w, t) && forall i | 0 <= i < |w.streams| :: AcceptedOk(w, t, i)
  }

  ghost predicate OutKnown(w: W) { forall x <- w.out :: Known(w, x) }

  ghost predicate FramesOk(w: W) { forall i | 0 <= i < |w.streams| :: FramesKnown(w, i) }

  ghost predicate Base(w: W) { StreamsOk(w) && TableOk(w) && CommitOk(w) && GenOk(w) && FramesOk(w) }

  ghost predicate Inv(w: W) {
    Base(w) && ValidRx(w.rx) && OutKnown(w) && forall t: string :: TopicInv(w, t)
  }

  lemma StartInv(uid: nat, me: SubscriberKey, limits: Limits)
    requires Coherent(limits)
    ensures Inv(Start(uid, me, limits))
  {
    hide Base, TopicInv;
    StartBase(uid, me, limits);
    forall t: string ensures TopicInv(Start(uid, me, limits), t) {
      StartTopic(uid, me, limits, t);
    }
  }

  lemma StartBase(uid: nat, me: SubscriberKey, limits: Limits)
    requires Coherent(limits)
    ensures Base(Start(uid, me, limits))
  {
  }

  lemma StartTopic(uid: nat, me: SubscriberKey, limits: Limits, t: string)
    ensures TopicInv(Start(uid, me, limits), t)
  {
    var w := Start(uid, me, limits);
    assert w.readLog + Pending(w) == [];
    assert Of(t, []) == [] && On(t, []) == [];
  }

  lemma BaseStep(w: W, s: Step)
    requires Base(w) && Enabled(w, s)
    ensures Base(Next(w, s))
  {
    hide Next, Enabled, StreamsOk, TableOk, CommitOk, GenOk, FramesKnown;
    StreamsStep(w, s);
    TableStep(w, s);
    CommitStep(w, s);
    GenStep(w, s);
    forall i | 0 <= i < |Next(w, s).streams| ensures FramesKnown(Next(w, s), i) {
      FramesKnownStep(w, s, i);
    }
  }

  /** The frame about to be read is known, and extends the reads in order. */
  lemma ReadIsNext(w: W, t: string)
    requires Inv(w) && Readable(w)
    ensures NextFrame(w).Reliable? ==> Known(w, NextFrame(w).data)
    ensures Ascending(Of(t, w.readLog + [NextFrame(w)]))
  {
    NextIsAccepted(w);
    hide Inv, FramesKnown, Of, Known, InOrder, Ascending;
    var acc, f := w.streams[w.gen.value].sys.accepted, NextFrame(w);
    KnownFrame(w, w.gen.value, f);
    var rest := acc[w.pos + 1..];
    assert acc[w.pos..] == [f] + rest;
    assert w.readLog + Pending(w) == (w.readLog + [f]) + rest;
    TrackedHere(w, t);
    PrefixInOrder(w, w.me, t, w.readLog + [f], rest);
    InOrderAscends(w, w.me, t, w.readLog + [f]);
  }

  lemma NextIsAccepted(w: W)
    requires Inv(w) && Readable(w)
    ensures var acc := w.streams[w.gen.value].sys.accepted;
            w.pos < |acc| && acc[w.pos] == NextFrame(w) && FramesKnown(w, w.gen.value)
  {
    hide P.Inv, TableOk, CommitOk, TopicInv, OutKnown, ValidRx, FramesKnown;
    assert P.Inv(w.streams[w.gen.value].sys);
    StartedIsPrefix(w.streams[w.gen.value].sys);
  }

  lemma KnownFrame(w: W, i: nat, f: Frame)
    requires i < |w.streams| && FramesKnown(w, i) && f in w.streams[i].sys.accepted
    ensures f.Reliable? ==> Known(w, f.data)
  {
  }

  lemma TrackedHere(w: W, t: string)
    requires Inv(w)
    ensures InOrder(w, w.me, t, w.readLog + Pending(w))
  {
    hide Base, OutKnown, Delivered, InOrder, Pending, ValidRx;
    assert TopicInv(w, t);
  }

  lemma InOrderAscends(w: W, key: SubscriberKey, t: string, fs: seq<Frame>)
    requires InOrder(w, key, t, fs)
    ensures Ascending(Of(t, fs))
  {
  }

  lemma DeliveredStep(w: W, s: Step, t: string)
    requires Inv(w) && Enabled(w, s)
    ensures Delivered(Next(w, s), t) && ValidRx(Next(w, s).rx)
    ensures Next(w, s).out == w.out || exists x :: Known(w, x) && Next(w, s).out == w.out + [x]
  {
    hide Next, Base, OutKnown, Delivered, Known, Tracked, AcceptedOk, ValidRx;
    assert TopicInv(w, t);
    if !s.Read? {
      OthersDeliverNothing(w, s, t);
    } else {
      ReadIs(w, s);
      if NextFrame(w).Presence? {
        PresenceDelivers(w, Next(w, s), t);
      } else {
        var topic := TopicOf(NextFrame(w).data);
        assert TopicInv(w, topic);
        ReadIsNext(w, topic);
        DataDelivers(w, Next(w, s), t);
      }
    }
  }

  lemma OutKnownStep(w: W, s: Step)
    requires Inv(w) && Enabled(w, s)
    ensures OutKnown(Next(w, s)) && ValidRx(Next(w, s).rx)
  {
    hide Next, Enabled, Known, TopicOk, TopicInv, StreamsOk, TableOk, ValidRx;
    var w' := Next(w, s);
    DeliveredStep(w, s, "");
    forall x | x in w'.out ensures Known(w', x) {
      assert CallOk(w) && TopicOk(w, TopicOf(x));
      assert Known(w, x);
      KnownStep(w, s, x);
    }
  }

  lemma InvStep(w: W, s: Step)
    requires Inv(w) && Enabled(w, s)
    ensures Inv(Next(w, s))
  {
    hide Next, Enabled, StreamsOk, TableOk, CommitOk, GenOk, Tracked, Delivered, AcceptedOk,
         OutKnown, ValidRx, FramesOk;
    BaseStep(w, s);
    OutKnownStep(w, s);
    forall t: string ensures TopicInv(Next(w, s), t) {
      assert TopicInv(w, t);
      TrackedStep(w, s, t);
      DeliveredStep(w, s, t);
      forall i | 0 <= i < |Next(w, s).streams| ensures AcceptedOk(Next(w, s), t, i) {
        AcceptedStep(w, s, t, i);
      }
    }
  }

  lemma {:induction false} InvRun(w: W, steps: seq<Step>)
    requires Inv(w) && Possible(w, steps)
    ensures Inv(After(w, steps))
    decreases |steps|
  {
    hide Next, Enabled, Inv;
    if steps != [] {
      InvStep(w, steps[0]);
      InvRun(Next(w, steps[0]), steps[1..]);
    }
  }

  /** Main theorem. In every run (publishes, refusals, drains, failures, cancellations,
      re-dials, resets, cleanups in any interleaving) what the observed subscriber
      delivers is, topic by topic, in strictly ascending tid order, and every delivered
      frame is the frame of the one call that had its tid accepted. */
  lemma OrderedExactlyOnce(uid: nat, me: SubscriberKey, limits: Limits, steps: seq<Step>, t: string)
    requires Coherent(limits) && Possible(Start(uid, me, limits), steps)
    ensures var w := After(Start(uid, me, limits), steps);
            && Ascending(On(t, w.out))
            && forall x <- w.out :: Known(w, x)
  {
    StartInv(uid, me, limits);
    InvRun(Start(uid, me, limits), steps);
    hide After, Known, On, Base;
    assert TopicInv(After(Start(uid, me, limits), steps), t);
  }

  /** Commit discipline over every run: the committed sequence of a topic is its number
      of Sent calls, these carry 1, 2, 3, ..., and each stream's accepted tids ascend. */
  lemma CommitDiscipline(uid: nat, me: SubscriberKey, limits: Limits, steps: seq<Step>, t: string, i: nat)
    requires Coherent(limits) && Possible(Start(uid, me, limits), steps)
    requires i < |After(Start(uid, me, limits), steps).streams|
    ensures var w := After(Start(uid, me, limits), steps);
            && |On(t, w.sent)| == SeqOf(w, t)
            && (forall j | 0 <= j < |On(t, w.sent)| :: On(t, w.sent)[j].tid == j + 1)
            && Ascending(Of(t, w.streams[i].sys.accepted))
            && (forall f <- w.streams[i].sys.accepted | f.Reliable? :: Known(w, f.data))
  {
    StartInv(uid, me, limits);
    InvRun(Start(uid, me, limits), steps);
    var w := After(Start(uid, me, limits), steps);
    hide After, Known, On, Of, StreamsOk, TableOk, Delivered, Tracked;
    assert TopicInv(w, t) && TopicOk(w, t) && FramesKnown(w, i) && AcceptedOk(w, t, i);
  }

  /** Two frames accepted anywhere under the same topic and tid are the same frame. */
  lemma SameTidSameFrame(w: W, x: DataMessage, y: DataMessage)
    requires CommitOk(w) && Known(w, x) && Known(w, y) && TopicOf(x) == TopicOf(y) && x.tid == y.tid
    ensures x == y
  {
    assert TopicOk(w, TopicOf(x));
  }

  // ------------------------------------------------------------- calls of a run

  /** The number of the call that a run is in, or was in last. */
  function CallNumber(steps: seq<Step>): nat {
    if steps == [] then 0
    else CallNumber(steps[..|steps| - 1]) + if steps[|steps| - 1].Begin? then 1 else 0
  }

  lemma {:induction false} RunSplits(w: W, a: seq<Step>, b: seq<Step>)
    requires Possible(w, a + b)
    ensures Possible(w, a) && Possible(After(w, a), b) && After(w, a + b) == After(After(w, a), b)
    decreases |a|
  {
    hide Next, Enabled;
    if a == [] {
      assert a + b == b;
    } else {
      assert (a + b)[1..] == a[1..] + b;
      RunSplits(Next(w, a[0]), a[1..], b);
    }
  }

  lemma {:induction false} NumbersAdd(a: seq<Step>, b: seq<Step>)
    ensures CallNumber(a + b) == CallNumber(a) + CallNumber(b)
    decreases |b|
  {
    if b == [] {
      assert a + b == a;
    } else {
      var init := b[..|b| - 1];
      assert (a + b)[..|a + b| - 1] == a + init;
      NumbersAdd(a, init);
    }
  }

  lemma FirstNumber(steps: seq<Step>)
    requires steps != []
    ensures CallNumber(steps) == (if steps[0].Begin? then 1 else 0) + CallNumber(steps[1..])
  {
    var first := [steps[0]];
    assert first + steps[1..] == steps && first[..0] == [];
    assert CallNumber(first) == if steps[0].Begin? then 1 else 0;
    NumbersAdd(first, steps[1..]);
  }

  /** Tid `n` of `t` is committed or passed, and the call in progress is past it too. */
  predicate Past(w: W, t: string, n: nat) {
    n <= SeqOf(w, t) && (w.call.Some? && TopicOf(w.call.value.m) == t ==> n < w.call.value.m.tid)
  }

  /** A call some subscriber accepted goes on, or its tid is past. */
  lemma AcceptedCallStep(w: W, s: Step)
    requires CallOk(w) && Enabled(w, s) && w.call.Some? && w.call.value.acceptedAny
    ensures var m := w.call.value.m; var w' := Next(w, s);
            && !s.Begin?
            && if s.End? then w'.call.None? && Past(w', TopicOf(m), m.tid)
               else w'.call.Some? && w'.call.value.m == m && w'.call.value.acceptedAny
  {
    CallEffects(w, s);
    hide Next, MakeCompositeKey;
  }

  lemma PastStep(w: W, s: Step, t: string, n: nat)
    requires CallOk(w) && Enabled(w, s) && Past(w, t, n)
    ensures Past(Next(w, s), t, n)
  {
    CallEffects(w, s);
    hide Next, MakeCompositeKey;
  }

  lemma {:induction false} PastRun(w: W, steps: seq<Step>, t: string, n: nat)
    requires CallOk(w) && Possible(w, steps) && Past(w, t, n)
    ensures Past(After(w, steps), t, n)
    decreases |steps|
  {
    hide Next, Enabled, CallOk, Past;
    if steps != [] {
      PastStep(w, steps[0], t, n);
      CallStep(w, steps[0]);
      PastRun(Next(w, steps[0]), steps[1..], t, n);
    }
  }

  /** Only Begin begins a call. */
  lemma {:induction false} NoCallBegins(w: W, steps: seq<Step>)
    requires Possible(w, steps) && w.call.None? && CallNumber(steps) == 0
    ensures After(w, steps).call.None?
    decreases |steps|
  {
    hide Next;
    if steps != [] {
      FirstNumber(steps);
      CallEffects(w, steps[0]);
      NoCallBegins(Next(w, steps[0]), steps[1..]);
    }
  }

  lemma {:induction false} AcceptedCallRun(w: W, steps: seq<Step>)
    requires CallOk(w) && Possible(w, steps) && w.call.Some? && w.call.value.acceptedAny
    ensures var m := w.call.value.m; var w' := After(w, steps);
            if CallNumber(steps) == 0 then w'.call.None? || w'.call.value.m == m else Past(w', TopicOf(m), m.tid)
    decreases |steps|
  {
    hide Next, Enabled, CallOk, Past, MakeCompositeKey;
    if steps != [] {
      FirstNumber(steps);
      AcceptedCallStep(w, steps[0]);
      CallStep(w, steps[0]);
      var w1 := Next(w, steps[0]);
      if steps[0].End? {
        PastRun(w1, steps[1..], TopicOf(w.call.value.m), w.call.value.m.tid);
        if CallNumber(steps[1..]) == 0 {
          NoCallBegins(w1, steps[1..]);
        }
      } else {
        AcceptedCallRun(w1, steps[1..]);
      }
    }
  }

  /** The same from any state: a call in progress at the end is the first one, and has its
      tid, if and only if none began in between; otherwise its tid is greater. */
  lemma CallsApart(w: W, between: seq<Step>)
    requires CallOk(w) && Possible(w, between) && w.call.Some? && w.call.value.acceptedAny
    requires After(w, between).call.Some? && TopicOf(After(w, between).call.value.m) == TopicOf(w.call.value.m)
    ensures var b := After(w, between).call.value;
            && (w.call.value.m.tid == b.m.tid <==> CallNumber(between) == 0)
            && (CallNumber(between) > 0 ==> w.call.value.m.tid < b.m.tid)
  {
    hide Possible, After, CallNumber, TopicOf, CallOk;
    AcceptedCallRun(w, between);
  }

  /** No tid is accepted in two different calls: at two moments of a run at which a call on
      one topic is in progress, the first already accepted by somebody, the tid is the
      same if and only if the call is; a later call's tid is greater. */
  lemma OneCallPerTid(uid: nat, me: SubscriberKey, limits: Limits, before: seq<Step>, between: seq<Step>)
    requires Coherent(limits) && Possible(Start(uid, me, limits), before)
    requires Possible(Start(uid, me, limits), before + between)
    requires var a, b := After(Start(uid, me, limits), before).call,
                 After(Start(uid, me, limits), before + between).call;
             a.Some? && b.Some? && a.value.acceptedAny && TopicOf(a.value.m) == TopicOf(b.value.m)
    ensures var a, b := After(Start(uid, me, limits), before).call,
                After(Start(uid, me, limits), before + between).call;
            && (a.value.m.tid == b.value.m.tid <==> CallNumber(before) == CallNumber(before + between))
            && (CallNumber(before) < CallNumber(before + between) ==> a.value.m.tid < b.value.m.tid)
  {
    hide Start, Inv, TopicOf, CallOk, After, Possible, CallNumber;
    RunSplits(Start(uid, me, limits), before, between);
    NumbersAdd(before, between);
    StartInv(uid, me, limits);
    InvRun(Start(uid, me, limits), before);
    var w := After(Start(uid, me, limits), before);
    CallIsOk(w);
    CallsApart(w, between);
  }

  lemma CallIsOk(w: W)
    requires Inv(w)
    ensures CallOk(w)
  {
  }

  /** Generation safety over every run: a registered stream that is live is its key's
      table entry, so there is at most one per key, no late eviction removes it, and the
      table never names a stream whose OnDone has returned. */
  lemma GenerationSafety(uid: nat, me: SubscriberKey, limits: Limits, steps: seq<Step>, i: nat, key: SubscriberKey)
    requires Coherent(limits) && Possible(Start(uid, me, limits), steps)
    requires i < |After(Start(uid, me, limits), steps).streams|
    ensures var w := After(Start(uid, me, limits), steps);
            && (w.streams[i].registered && IsLive(w.streams[i].sys.r) ==>
                  w.streams[i].key in w.table && w.table[w.streams[i].key] == i)
            && (key in w.table ==> w.table[key] < |w.streams| && !w.streams[w.table[key]].closed
                                   && w.streams[w.table[key]].key == key)
  {
    StartInv(uid, me, limits);
    InvRun(Start(uid, me, limits), steps);
    var w := After(Start(uid, me, limits), steps);
    hide After, StreamsOk, CommitOk, FramesOk, TopicInv;
    assert StreamOk(w, i) && EntryOk(w, key);
  }

  /** A cancelled, superseded or finished stream never accepts another frame. */
  lemma {:induction false} DeadNeverAccepts(w: W, steps: seq<Step>, i: nat)
    requires Possible(w, steps) && i < |w.streams| && !IsLive(w.streams[i].sys.r)
    ensures var e := After(w, steps);
            i < |e.streams| && e.streams[i].sys.accepted == w.streams[i].sys.accepted && !IsLive(e.streams[i].sys.r)
    decreases |steps|
  {
    if steps != [] {
      var s := steps[0];
      StreamMoves(w, s, i);
      hide Next, P.Next, Enabled;
      var a := ActionOn(w, s, i);
      if a.Some? {
        P.AcceptedStep(w.streams[i].sys, a.value);
        P.KeepsTeardownStep(w.streams[i].sys, a.value);
      }
      DeadNeverAccepts(Next(w, s), steps[1..], i);
    }
  }
}
