/** The lossless theorem: over any run (refusals, failures, re-dials and cleanups
    included) what the subscriber delivers on a topic is exactly the frames of the Sent
    calls if and only if no step of the run loses one; and which steps those are. */
module Lossless {
  import opened Keys
  import opened Numbers
  import opened Window
  import opened Receiver
  import opened Reactor
  import opened World
  import opened Ordering
  import opened EndToEnd
  import P = ReactorProtocol

  // ------------------------------------------------------------- the publisher

  predicate CallOn(w: W, t: string) { w.call.Some? && TopicOf(w.call.value.m) == t }

  /** The call in progress on `t` has been accepted by the observed subscriber. */
  predicate Took(w: W, t: string) {
    CallOn(w, t) && w.me in w.call.value.report && w.call.value.report[w.me] == Accepted
  }

  /** `ms` without its first `n`. */
  function Suffix(ms: seq<DataMessage>, n: nat): seq<DataMessage> { if n <= |ms| then ms[n..] else [] }

  /** Frames of `t` after the first `n`: the committed ones, then the one in flight. */
  function NewFrames(w: W, t: string, n: nat): seq<DataMessage> {
    Suffix(On(t, w.sent), n) + (if Took(w, t) then [w.call.value.m] else [])
  }

  /** The step pushes a frame of `t` to the observed subscriber, which accepts it. */
  predicate PushedToMe(w: W, s: Step, t: string)
    requires Enabled(w, s)
  {
    s.PushNext? && CallOn(w, t) && w.call.value.todo[0] == w.me
    && PushStatus(w, w.me, w.call.value.m) == Accepted
  }

  /** The stream that answers pushes to the observed subscriber is the one it reads. */
  predicate Linked(w: W) { w.gen.Some? && w.me in w.table && w.table[w.me] == w.gen.value }

  /** What of `t` is waiting to be read, and what was delivered. */
  function Held(w: W, t: string): seq<DataMessage> { Of(t, Pending(w)) }

  function Log(w: W, t: string): seq<DataMessage> { On(t, w.out) }

  // ---------------------------------------------------------- the steps that lose

  /** The call on `t` that the step commits, if any, was accepted by the subscriber. */
  predicate TakenStep(w: W, s: Step, t: string)
    requires Enabled(w, s)
  {
    Commits(w, s) && CallOn(w, t) ==> Took(w, t)
  }

  /** The frame goes to a stream that the subscriber has re-dialed away from. */
  predicate GoesAstray(w: W, s: Step, t: string)
    requires Enabled(w, s)
  {
    PushedToMe(w, s, t) && !Linked(w)
  }

  /** A re-dial leaves accepted frames behind. */
  predicate CutsOff(w: W, s: Step, t: string) { Redials(w, s) && Held(w, t) != [] }

  /** The frame finds no window and no re-dial marker, so a window made for it waits for
      tid 1; it is past that by less than a window. Windows go when their publisher
      times out. */
  predicate Stranded(rx: RxState, m: DataMessage) {
    m.uid !in rx.freshPublishers && KeyOf(m) !in rx.windows && 1 < m.tid < 1 + RELIABLE_WINDOW_SIZE
  }

  predicate Stalls(w: W, s: Step, t: string)
    requires Enabled(w, s)
  {
    s.Read? && NextFrame(w).Reliable? && TopicOf(NextFrame(w).data) == t && Stranded(w.rx, NextFrame(w).data)
  }

  predicate Loses(w: W, s: Step, t: string)
    requires Enabled(w, s)
  {
    !TakenStep(w, s, t) || GoesAstray(w, s, t) || CutsOff(w, s, t) || Stalls(w, s, t)
  }

  ghost predicate NothingLost(w: W, steps: seq<Step>, t: string)
    requires Possible(w, steps)
    decreases |steps|
  {
    steps != [] ==> !Loses(w, steps[0], t) && NothingLost(Next(w, steps[0]), steps[1..], t)
  }

  // --------------------------------------------------------- what a step moves

  lemma OneFrame(t: string, f: Frame)
    ensures Of(t, []) == [] && Of(t, [f]) == if f.Reliable? && TopicOf(f.data) == t then [f.data] else []
  {
    OfAppend(t, [], f);
    assert [] + [f] == [f];
  }

  lemma OnOne(t: string, m: DataMessage)
    ensures On(t, []) == [] && On(t, [m]) == if TopicOf(m) == t then [m] else []
  {
    OnAppend(t, [], m);
    assert [] + [m] == [m];
  }

  lemma InvBase(w: W)
    requires Inv(w)
    ensures CommitOk(w) && CallOk(w) && TableOk(w) && GenOk(w) && StreamsOk(w)
  {
  }

  /** What a step adds to the stream that the subscriber reads. */
  function Coming(w: W, s: Step): seq<Frame>
    requires Enabled(w, s)
  {
    if w.gen.Some? && w.gen.value < |w.streams| then Newly(w, s, w.gen.value) else []
  }

  /** Only a call's push to `me` adds a data frame to the stream `me` reads. */
  lemma WhoPushes(w: W, s: Step)
    requires Enabled(w, s) && TableOk(w) && GenOk(w)
    ensures Coming(w, s) ==
            if s.PushNext? && w.call.value.todo[0] == w.me && Linked(w) then
              if PushStatus(w, w.me, w.call.value.m) == Accepted then [Reliable(w.call.value.m)] else []
            else if s.Presence? && w.gen == Some(s.i)
                    && EnqueueSection(w.streams[s.i].sys.r, Frame.Presence).status == Accepted
                 then [Frame.Presence]
            else []
  {
    if s.PushNext? {
      assert EntryOk(w, w.call.value.todo[0]);
    }
    hide Next, P.Next, EnqueueSection, TableOk;
  }

  function Arriving(w: W, s: Step, t: string): seq<DataMessage>
    requires Enabled(w, s)
  {
    if PushedToMe(w, s, t) && Linked(w) then [w.call.value.m] else []
  }

  lemma ComingOn(w: W, s: Step, t: string)
    requires Enabled(w, s) && TableOk(w) && GenOk(w)
    ensures Of(t, Coming(w, s)) == Arriving(w, s, t)
  {
    WhoPushes(w, s);
    OneFrame(t, Frame.Presence);
    if s.PushNext? {
      OneFrame(t, Reliable(w.call.value.m));
    }
    hide Next, Coming, Of, TopicOf, TableOk, GenOk, EnqueueSection, PushStatus, Linked;
  }

  lemma StreamRead(w: W)
    requires Inv(w) && w.gen.Some?
    ensures w.gen.value < |w.streams| && w.pos <= |w.streams[w.gen.value].sys.accepted|
  {
    hide P.Inv, TableOk, CommitOk, FramesOk, TopicInv, OutKnown, ValidRx;
    assert P.Inv(w.streams[w.gen.value].sys);
    StartedIsPrefix(w.streams[w.gen.value].sys);
  }

  lemma PendingGrows(w: W, s: Step)
    requires Inv(w) && Enabled(w, s) && !s.Read? && !Redials(w, s)
    ensures Pending(Next(w, s)) == Pending(w) + Coming(w, s)
  {
    hide Next, Enabled, Inv, Newly;
    ClientEffects(w, s);
    if w.gen.Some? {
      var g := w.gen.value;
      StreamRead(w);
      StreamMoves(w, s, g);
      AcceptedGrows(w, s, g);
      var acc, now := w.streams[g].sys.accepted, Newly(w, s, g);
      assert (acc + now)[w.pos..] == acc[w.pos..] + now;
    }
  }

  lemma OthersMove(w: W, s: Step, t: string)
    requires Inv(w) && Enabled(w, s) && !s.Read? && !Redials(w, s)
    ensures Log(Next(w, s), t) == Log(w, t) && Held(Next(w, s), t) == Held(w, t) + Arriving(w, s, t)
  {
    hide Next, Enabled, Inv, On, Datas, Coming, Arriving, TableOk, GenOk, CallOk;
    InvBase(w);
    ClientEffects(w, s);
    PendingGrows(w, s);
    ComingOn(w, s, t);
    OfConcat(t, Pending(w), Coming(w, s));
  }

  lemma DialMoves(w: W, s: Step, t: string)
    requires Enabled(w, s) && Redials(w, s)
    ensures Log(Next(w, s), t) == Log(w, t) && Held(Next(w, s), t) == []
  {
    ClientEffects(w, s);
    FirstAccepts(w, s);
    hide Next, Enabled;
    assert Pending(Next(w, s)) == [];
  }

  lemma PendingHead(w: W, w': W)
    requires Inv(w) && Readable(w) && w'.streams == w.streams && w'.gen == w.gen && w'.pos == w.pos + 1
    ensures Pending(w) == [NextFrame(w)] + Pending(w')
  {
    NextIsAccepted(w);
    hide Inv;
    var acc := w.streams[w.gen.value].sys.accepted;
    assert acc[w.pos..] == [acc[w.pos]] + acc[w.pos + 1..];
  }

  lemma ReadNeedsStream(w: W, s: Step)
    requires Enabled(w, s) && s.Read?
    ensures Readable(w)
  {
  }

  lemma ReadTakesHead(w: W, s: Step, t: string)
    requires Inv(w) && Enabled(w, s) && s.Read?
    ensures Readable(w) && Held(w, t) == Of(t, [NextFrame(w)]) + Held(Next(w, s), t)
  {
    hide Next, Enabled, Inv, On, Datas;
    ReadNeedsStream(w, s);
    ClientEffects(w, s);
    PendingHead(w, Next(w, s));
    OfConcat(t, [NextFrame(w)], Pending(Next(w, s)));
  }

  /** What a read delivers: nothing, or the frame it read. */
  lemma OneHandled(w: W)
    requires Inv(w) && Readable(w)
    ensures var f := NextFrame(w); var d := Handle(w.rx, f).dispatched;
            d == [] || (f.Reliable? && d == [f.data])
  {
    hide Base, OutKnown, Delivered, Tracked, AcceptedOk, ValidRx, Handle, Known;
    var f := NextFrame(w);
    if f.Presence? {
      PresenceIgnored(w.rx);
    } else {
      var topic := TopicOf(f.data);
      assert TopicInv(w, topic);
      ReadIsNext(w, topic);
      hide Of, On;
      SettledHere(w, f.data);
    }
  }

  lemma SettledHere(w: W, m: DataMessage)
    requires ValidRx(w.rx) && Known(w, m) && Delivered(w, TopicOf(m))
             && Ascending(Of(TopicOf(m), w.readLog + [Reliable(m)]))
    ensures var d := Handle(w.rx, Reliable(m)).dispatched; d == [] || d == [m]
  {
    hide Handle, Of, On, Settled, ValidRx, Ascending, LastTid;
    ReadSettles(w.rx, w.out, w.readLog, m, TopicOf(m));
  }

  lemma ReadMoves(w: W, s: Step, t: string)
    requires Inv(w) && Enabled(w, s) && s.Read?
    ensures Readable(w) && Held(w, t) == Of(t, [NextFrame(w)]) + Held(Next(w, s), t)
    ensures Log(Next(w, s), t) == Log(w, t) + On(t, Handle(w.rx, NextFrame(w)).dispatched)
    ensures var d := On(t, Handle(w.rx, NextFrame(w)).dispatched); d == [] || d == Of(t, [NextFrame(w)])
  {
    ReadTakesHead(w, s, t);
    hide Next, Enabled, Inv, Handle, NextFrame, Readable, Held;
    ClientEffects(w, s);
    OneHandled(w);
    OneFrame(t, NextFrame(w));
    var d := Handle(w.rx, NextFrame(w)).dispatched;
    OnConcat(t, w.out, d);
    if d != [] {
      OnOne(t, d[0]);
    }
    assert On(t, []) == [];
  }

  // --------------------------------------------------- nothing lost: all delivered

  lemma TookStep(w: W, s: Step, t: string)
    requires Enabled(w, s) && CallOk(w)
    ensures Next(w, s).me == w.me
    ensures Took(Next(w, s), t) <==> (!s.End? && Took(w, t)) || PushedToMe(w, s, t)
    ensures PushedToMe(w, s, t) ==> !Took(w, t)
    ensures Took(Next(w, s), t) ==> w.call.Some? && Next(w, s).call.value.m == w.call.value.m
  {
    CallEffects(w, s);
    hide Next, MakeCompositeKey;
  }

  /** The committed frames of `t` after a step. */
  lemma SentStep(w: W, s: Step, t: string)
    requires Enabled(w, s) && CallOk(w)
    ensures On(t, Next(w, s).sent)
         == On(t, w.sent) + (if Commits(w, s) && CallOn(w, t) then [w.call.value.m] else [])
    ensures s.End? && Took(w, t) ==> Commits(w, s)
  {
    CommitEffects(w, s);
    hide Next, On, MakeCompositeKey;
    assert On(t, w.sent) + [] == On(t, w.sent);
    if Commits(w, s) {
      OnAppend(t, w.sent, w.call.value.m);
    }
  }

  /** Ending a call moves its frame from in flight to committed. */
  lemma EndKeepsNewFrames(w: W, s: Step, t: string, n: nat)
    requires Enabled(w, s) && s.End? && CallOk(w) && TakenStep(w, s, t) && n <= |On(t, w.sent)|
    ensures n <= |On(t, Next(w, s).sent)| && NewFrames(Next(w, s), t, n) == NewFrames(w, t, n)
  {
    SentStep(w, s, t);
    TookStep(w, s, t);
    hide Next, Enabled, On, CallOk;
    var sent := On(t, w.sent);
    if Took(w, t) {
      var m := w.call.value.m;
      assert (sent + [m])[n..] == sent[n..] + [m];
      assert (sent[n..] + [m]) + [] == sent[n..] + [m];
    } else {
      assert sent + [] == sent;
    }
  }

  lemma OpenCallGrows(w: W, w': W, t: string, n: nat, pushed: bool)
    requires w'.sent == w.sent && (Took(w', t) <==> Took(w, t) || pushed) && (pushed ==> !Took(w, t))
    requires Took(w', t) ==> w.call.Some? && w'.call.value.m == w.call.value.m
    requires pushed ==> w.call.Some?
    ensures NewFrames(w', t, n) == NewFrames(w, t, n) + (if pushed then [w.call.value.m] else [])
  {
    hide On, Took;
  }

  /** While every commit is taken, what arrives is exactly what is new on the topic. */
  lemma NewFramesGrow(w: W, s: Step, t: string, n: nat)
    requires Enabled(w, s) && CallOk(w) && TakenStep(w, s, t) && !GoesAstray(w, s, t) && n <= |On(t, w.sent)|
    ensures n <= |On(t, Next(w, s).sent)|
    ensures NewFrames(Next(w, s), t, n) == NewFrames(w, t, n) + Arriving(w, s, t)
  {
    var before := NewFrames(w, t, n);
    if s.End? {
      EndKeepsNewFrames(w, s, t, n);
      assert Arriving(w, s, t) == [];
      hide *;
      assert before + [] == before;
    } else {
      hide Next, Enabled, NewFrames, CallOk, On, Linked, MakeCompositeKey;
      CommitEffects(w, s);
      TookStep(w, s, t);
      OpenCallGrows(w, Next(w, s), t, n, PushedToMe(w, s, t));
    }
  }

  lemma NewFramesNumbered(w: W, t: string, n: nat)
    requires CommitOk(w) && n <= |On(t, w.sent)|
    ensures forall j | 0 <= j < |NewFrames(w, t, n)| :: NewFrames(w, t, n)[j].tid == n + j + 1 < MAX_U64
  {
    hide On, MakeCompositeKey, CallOk, TopicOk, Suffix, SeqOf, Numbered;
    assert TopicOk(w, t) && CallOk(w);
    TopicNumbered(w, t);
    SuffixNumbered(On(t, w.sent), SeqOf(w, t), n);
    if Took(w, t) {
      NextAfter(w, t);
    }
  }

  lemma TopicNumbered(w: W, t: string)
    requires TopicOk(w, t)
    ensures Numbered(On(t, w.sent), SeqOf(w, t))
  {
  }

  lemma SuffixNumbered(ms: seq<DataMessage>, count: nat, n: nat)
    requires Numbered(ms, count) && n <= |ms|
    ensures |Suffix(ms, n)| == count - n < MAX_U64
    ensures forall j | 0 <= j < count - n :: Suffix(ms, n)[j].tid == n + j + 1 < MAX_U64
  {
    assert forall j | 0 <= j < count - n :: ms[n..][j] == ms[n + j];
  }

  lemma NextAfter(w: W, t: string)
    requires CallOk(w) && CallOn(w, t)
    ensures w.call.value.m.tid == SeqOf(w, t) + 1 < MAX_U64
  {
    hide MakeCompositeKey;
  }

  /** The window of `t`, if there is one, waits for tid `next` or for whatever comes, and
      holds nothing back. */
  predicate Ready(rx: RxState, uid: nat, t: string, next: nat) {
    var key := WindowKey(uid, t);
    key in rx.windows ==> rx.windows[key].buffer == [] && rx.windows[key].nextExpected in {0, next}
  }

  /** The next frame of a topic whose window is ready is delivered, unless it is stranded;
      a stranded one is held back. */
  lemma ReadyDelivers(rx: RxState, m: DataMessage)
    requires 1 <= m.tid < MAX_U64 && Ready(rx, m.uid, TopicOf(m), m.tid)
    ensures var o := Handle(rx, Reliable(m));
            if Stranded(rx, m) then o.dispatched == []
            else o.dispatched == [m] && Ready(o.state, m.uid, TopicOf(m), m.tid + 1)
  {
    hide MakeCompositeKey, UidPrefix;
  }

  lemma ReadyIgnores(rx: RxState, m: DataMessage, t: string, next: nat)
    requires TopicOf(m) != t && Ready(rx, m.uid, t, next)
    ensures Ready(Handle(rx, Reliable(m)).state, m.uid, t, next)
  {
    WindowKeyInjective(m.uid, TopicOf(m), m.uid, t);
  }

  /** Neither a dial nor the cleaner puts a window out of line. */
  lemma ReadyStays(rx: RxState, uid: nat, t: string, next: nat, noted: nat, uids: set<nat>)
    requires Ready(rx, uid, t, next)
    ensures Ready(NoteEstablished(rx, noted), uid, t, next) && Ready(Prune(rx, uids), uid, t, next)
  {
    hide StartsWith, UidPrefix;
  }

  /** Since the topic had `n` commits and the log was `base`, everything new on it was
      delivered or is waiting to be read, and its window is ready. */
  ghost predicate Even(w: W, t: string, n: nat, base: seq<DataMessage>) {
    && n <= |On(t, w.sent)| && |base| <= |Log(w, t)|
    && Log(w, t) + Held(w, t) == base + NewFrames(w, t, n)
    && Ready(w.rx, w.uid, t, Due(w, t, n, base))
  }

  /** The tid that comes next on the topic. */
  function Due(w: W, t: string, n: nat, base: seq<DataMessage>): nat {
    if |base| <= |Log(w, t)| then n + (|Log(w, t)| - |base|) + 1 else 0
  }

  /** A data frame of `t` read next is the next new frame of the topic. */
  lemma NextIsNew(w: W, s: Step, t: string, n: nat, base: seq<DataMessage>, m: DataMessage)
    requires Inv(w) && Enabled(w, s) && s.Read? && Readable(w) && Even(w, t, n, base)
    requires NextFrame(w) == Reliable(m) && TopicOf(m) == t
    ensures m.uid == w.uid && 1 <= m.tid == Due(w, t, n, base) < MAX_U64
  {
    hide Next, Enabled, Base, OutKnown, Delivered, Tracked, AcceptedOk, ValidRx, On, Of, Pending, NewFrames, Ready;
    ReadMoves(w, s, t);
    OneFrame(t, Reliable(m));
    ReadIsNext(w, t);
    InvBase(w);
    NewFramesNumbered(w, t, n);
    hide CommitOk, CallOk, TableOk, GenOk, StreamsOk, TopicInv;
    var log, new_ := Log(w, t), NewFrames(w, t, n);
    assert (base + new_)[|log|] == m == new_[|log| - |base|];
  }

  lemma ReadEven(w: W, s: Step, t: string, n: nat, base: seq<DataMessage>)
    requires Inv(w) && Enabled(w, s) && s.Read? && Even(w, t, n, base) && !Stalls(w, s, t)
    ensures Even(Next(w, s), t, n, base)
  {
    hide Next, Enabled, Inv, Log, Held, Ready, Handle, On, Of, NextFrame, Readable, MakeCompositeKey, Stranded, Took;
    ReadMoves(w, s, t);
    ReadKeepsCall(w, s, t, n);
    var f, log, rest := NextFrame(w), Log(w, t), Held(Next(w, s), t);
    OneFrame(t, f);
    if f.Presence? {
      PresenceIgnored(w.rx);
      OnOne(t, DataMessage(0, 0, "", "", []));
      assert log + [] == log && [] + rest == rest;
    } else if TopicOf(f.data) == t {
      NextIsNew(w, s, t, n, base, f.data);
      ReadyDelivers(w.rx, f.data);
      OnOne(t, f.data);
      assert (log + [f.data]) + rest == log + ([f.data] + rest);
    } else {
      OtherUid(w);
      ReadyIgnores(w.rx, f.data, t, Due(w, t, n, base));
      OnOne(t, f.data);
      assert log + [] == log && [] + rest == rest;
    }
  }

  lemma OtherUid(w: W)
    requires Inv(w) && Readable(w) && NextFrame(w).Reliable?
    ensures NextFrame(w).data.uid == w.uid
  {
    ReadIsNext(w, "");
    hide Inv;
  }

  lemma ReadKeepsCall(w: W, s: Step, t: string, n: nat)
    requires Enabled(w, s) && s.Read?
    ensures var w' := Next(w, s);
            && w'.uid == w.uid && w'.sent == w.sent && NewFrames(w', t, n) == NewFrames(w, t, n)
            && w'.rx == Handle(w.rx, NextFrame(w)).state
  {
    CallEffects(w, s);
    ClientEffects(w, s);
    hide Next, On;
  }

  lemma OtherEven(w: W, s: Step, t: string, n: nat, base: seq<DataMessage>)
    requires Inv(w) && Enabled(w, s) && !s.Read? && Even(w, t, n, base) && !Loses(w, s, t)
    ensures Even(Next(w, s), t, n, base)
  {
    hide Next, Enabled, Inv, Log, Held, Ready, NewFrames, Arriving, On, CallOk,
         CommitOk, TableOk, GenOk, StreamsOk, TakenStep, GoesAstray;
    InvBase(w);
    NewFramesGrow(w, s, t, n);
    WindowStays(w, s, t, Due(w, t, n, base));
    var log, held, new_, now := Log(w, t), Held(w, t), NewFrames(w, t, n), Arriving(w, s, t);
    if Redials(w, s) {
      DialMoves(w, s, t);
      DialArrives(w, s, t);
      assert new_ + [] == new_;
    } else {
      OthersMove(w, s, t);
      assert log + (held + now) == (log + held) + now == (base + new_) + now == base + (new_ + now);
    }
  }

  lemma DialArrives(w: W, s: Step, t: string)
    requires Enabled(w, s) && Redials(w, s)
    ensures Arriving(w, s, t) == []
  {
  }

  lemma WindowStays(w: W, s: Step, t: string, next: nat)
    requires Enabled(w, s) && !s.Read? && Ready(w.rx, w.uid, t, next)
    ensures Next(w, s).uid == w.uid && Ready(Next(w, s).rx, w.uid, t, next)
  {
    hide Next, Enabled, Ready;
    ClientEffects(w, s);
    CallEffects(w, s);
    ReadyStays(w.rx, w.uid, t, next, if s.Dial? then s.noted else 0, if s.Cleanup? then s.uids else {});
  }

  lemma EvenStep(w: W, s: Step, t: string, n: nat, base: seq<DataMessage>)
    requires Inv(w) && Enabled(w, s) && Even(w, t, n, base) && !Loses(w, s, t)
    ensures Even(Next(w, s), t, n, base)
  {
    if s.Read? {
      ReadEven(w, s, t, n, base);
    } else {
      OtherEven(w, s, t, n, base);
    }
    hide *;
  }

  lemma {:induction false} EvenRun(w: W, steps: seq<Step>, t: string, n: nat, base: seq<DataMessage>)
    requires Inv(w) && Possible(w, steps) && Even(w, t, n, base) && NothingLost(w, steps, t)
    ensures Even(After(w, steps), t, n, base)
    decreases |steps|
  {
    hide Next, Enabled, Inv, Even, Loses;
    if steps != [] {
      EvenStep(w, steps[0], t, n, base);
      InvStep(w, steps[0]);
      EvenRun(Next(w, steps[0]), steps[1..], t, n, base);
    }
  }

  /** The subscriber has read all of `t` that its stream accepted, the call in progress is
      still to come to it, and the window of `t` expects the publisher's next tid. */
  predicate CaughtUp(w: W, t: string) {
    !Took(w, t) && Held(w, t) == [] && Ready(w.rx, w.uid, t, SeqOf(w, t) + 1)
  }

  lemma CommittedCount(w: W, t: string)
    requires Inv(w)
    ensures |On(t, w.sent)| == SeqOf(w, t)
  {
    hide TopicInv, OutKnown, ValidRx, StreamsOk, TableOk, CallOk, GenOk, FramesOk, On;
    assert TopicOk(w, t);
  }

  lemma EvenStart(w: W, t: string)
    requires Inv(w) && CaughtUp(w, t)
    ensures Even(w, t, SeqOf(w, t), Log(w, t))
  {
    hide Inv, On, Of, Ready, Log, Held, Took, SeqOf;
    CommittedCount(w, t);
    assert Suffix(On(t, w.sent), SeqOf(w, t)) == [];
    var log := Log(w, t);
    assert log + [] == log;
  }

  /** Everything delivered on `t` since `w` is the frames of the Sent calls since, in order. */
  ghost predicate ExactlySent(w: W, e: W, t: string) {
    Log(e, t) == Log(w, t) + Suffix(On(t, e.sent), SeqOf(w, t))
  }

  lemma LosslessRun(w: W, steps: seq<Step>, t: string)
    requires Inv(w) && CaughtUp(w, t) && Possible(w, steps) && NothingLost(w, steps, t)
    requires After(w, steps).call.None? && Held(After(w, steps), t) == []
    ensures ExactlySent(w, After(w, steps), t)
  {
    hide After, Inv, On, Held, Log, Ready, Possible, NothingLost, SeqOf, CaughtUp;
    EvenStart(w, t);
    EvenRun(w, steps, t, SeqOf(w, t), Log(w, t));
    var e := After(w, steps);
    assert Log(e, t) + [] == Log(e, t);
    assert Suffix(On(t, e.sent), SeqOf(w, t)) + [] == Suffix(On(t, e.sent), SeqOf(w, t));
  }

  // ------------------------------------------------- a loss is never made good

  /** Tid `n` of `t` has been accepted somewhere, and the subscriber neither got it nor
      holds it. */
  ghost predicate Missed(w: W, t: string, n: nat) {
    && n <= High(w, w.me, t)
    && (forall x <- Held(w, t) :: x.tid != n) && (forall x <- Log(w, t) :: x.tid != n)
  }

  /** Delivered frames are older than the held ones, and these ascend. */
  lemma InLine(w: W, t: string)
    requires Inv(w)
    ensures Ascending(Held(w, t)) && AllBelow(Held(w, t), High(w, w.me, t) + 1)
    ensures AllBelow(Log(w, t), High(w, w.me, t) + 1)
    ensures Held(w, t) != [] ==> AllBelow(Log(w, t), Held(w, t)[0].tid)
  {
    hide Base, ValidRx, On, Datas, AcceptedOk, High, Known;
    assert TopicInv(w, t);
    LoggedFromOne(w, t);
    OfConcat(t, w.readLog, Pending(w));
    Ordered(Of(t, w.readLog), Held(w, t), High(w, w.me, t) + 1);
    hide Of, Pending, OutKnown;
  }

  lemma LoggedFromOne(w: W, t: string)
    requires OutKnown(w)
    ensures forall x <- Log(w, t) :: 1 <= x.tid
  {
    OnMembers(t, w.out);
    hide On;
    forall x | x in Log(w, t) ensures 1 <= x.tid {
      assert Known(w, x);
    }
  }

  lemma Ordered(a: seq<DataMessage>, b: seq<DataMessage>, bound: nat)
    requires Ascending(a + b) && AllBelow(a + b, bound) && bound > 0
    ensures Ascending(b) && AllBelow(b, bound) && LastTid(a) < bound
    ensures b != [] ==> LastTid(a) < b[0].tid || (a == [] && LastTid(a) == 0)
  {
    var c := a + b;
    assert forall i | 0 <= i < |b| :: b[i] == c[|a| + i];
    assert forall m <- b :: m in c;
    if a != [] {
      assert a[|a| - 1] == c[|a| - 1] && c[|a| - 1] in c;
    }
  }

  lemma MissedStep(w: W, s: Step, t: string, n: nat)
    requires Inv(w) && Enabled(w, s) && Missed(w, t, n)
    ensures Missed(Next(w, s), t, n)
  {
    hide Next, Enabled, Inv, Log, Held, High, Arriving, NextFrame, Readable, Handle;
    InvBase(w);
    HighStep(w, s, w.me, t);
    CallEffects(w, s);
    hide CommitOk, TableOk, GenOk, StreamsOk, CallOk;
    if s.Read? {
      ReadMoves(w, s, t);
    } else if Redials(w, s) {
      DialMoves(w, s, t);
    } else {
      OthersMove(w, s, t);
      ArrivesNewer(w, s, t);
    }
  }

  lemma ArrivesNewer(w: W, s: Step, t: string)
    requires Inv(w) && Enabled(w, s)
    ensures forall m <- Arriving(w, s, t) :: High(w, w.me, t) < m.tid
  {
    InvBase(w);
    hide Next, Inv, CommitOk, TableOk, GenOk, StreamsOk, MakeCompositeKey, PushStatus;
  }

  lemma {:induction false} MissedRun(w: W, steps: seq<Step>, t: string, n: nat)
    requires Inv(w) && Possible(w, steps) && Missed(w, t, n)
    ensures Missed(After(w, steps), t, n)
    decreases |steps|
  {
    hide Next, Enabled, Inv, Missed;
    if steps != [] {
      MissedStep(w, steps[0], t, n);
      InvStep(w, steps[0]);
      MissedRun(Next(w, steps[0]), steps[1..], t, n);
    }
  }

  /** All that is held of `t` is newer than its first `from` commits. */
  ghost predicate Younger(w: W, t: string, from: nat) {
    from <= SeqOf(w, t) && forall x <- Held(w, t) :: from < x.tid
  }

  lemma YoungerStep(w: W, s: Step, t: string, from: nat)
    requires Inv(w) && Enabled(w, s) && Younger(w, t, from)
    ensures Younger(Next(w, s), t, from)
  {
    hide Next, Enabled, Inv, Log, Held, SeqOf, Arriving, NextFrame, Readable, Handle;
    SeqGrows(w, s, t);
    if s.Read? {
      ReadMoves(w, s, t);
    } else if Redials(w, s) {
      DialMoves(w, s, t);
    } else {
      OthersMove(w, s, t);
      ArrivesNewer(w, s, t);
      HighIsPast(w, t);
    }
  }

  lemma HighIsPast(w: W, t: string)
    requires Inv(w)
    ensures SeqOf(w, t) <= High(w, w.me, t)
  {
    InvBase(w);
    hide Inv, CommitOk, TableOk, GenOk, StreamsOk, MakeCompositeKey;
  }

  lemma SeqGrows(w: W, s: Step, t: string)
    requires Inv(w) && Enabled(w, s)
    ensures SeqOf(w, t) <= SeqOf(Next(w, s), t)
  {
    InvBase(w);
    CommitEffects(w, s);
    hide Next, Inv, CommitOk, TableOk, GenOk, StreamsOk, MakeCompositeKey;
  }

  /** A commit that the observed subscriber did not take. */
  lemma SkippedIsMissed(w: W, s: Step, t: string)
    requires Inv(w) && Enabled(w, s) && !TakenStep(w, s, t)
    ensures Missed(Next(w, s), t, SeqOf(w, t) + 1)
  {
    hide Next, Inv, Log, Held, Took, CommitOk, TableOk, GenOk, StreamsOk, MakeCompositeKey;
    InvBase(w);
    InLine(w, t);
    OthersMove(w, s, t);
    CommitEffects(w, s);
    CallEffects(w, s);
    UntakenHigh(w, t);
    assert Arriving(w, s, t) == [];
    assert Held(w, t) + [] == Held(w, t);
  }

  lemma UntakenHigh(w: W, t: string)
    requires CallOk(w) && CallOn(w, t) && !Took(w, t)
    ensures High(w, w.me, t) == SeqOf(w, t) && w.call.value.m.tid == SeqOf(w, t) + 1
  {
    hide MakeCompositeKey;
  }

  /** A frame accepted by a stream that the subscriber does not read. */
  lemma AstrayIsMissed(w: W, s: Step, t: string)
    requires Inv(w) && Enabled(w, s) && GoesAstray(w, s, t)
    ensures Missed(Next(w, s), t, SeqOf(w, t) + 1)
  {
    hide Next, Inv, Log, Held, CommitOk, TableOk, GenOk, StreamsOk, Linked, PushStatus, MakeCompositeKey;
    InvBase(w);
    TookStep(w, s, t);
    CallEffects(w, s);
    UntakenHigh(w, t);
    InLine(w, t);
    OthersMove(w, s, t);
    assert Arriving(w, s, t) == [];
    assert Held(w, t) + [] == Held(w, t);
  }

  /** A frame that a re-dial leaves behind. */
  lemma CutOffIsMissed(w: W, s: Step, t: string)
    requires Inv(w) && Enabled(w, s) && CutsOff(w, s, t)
    ensures Missed(Next(w, s), t, Held(w, t)[0].tid)
  {
    hide Next, Enabled, Inv, Log, Held, High, CommitOk, TableOk, GenOk, StreamsOk, CallOk;
    InvBase(w);
    HighStep(w, s, w.me, t);
    CallEffects(w, s);
    InLine(w, t);
    DialMoves(w, s, t);
    assert Held(w, t)[0] in Held(w, t);
  }

  /** A frame that is read, and finds no window but one that waits for tid 1. */
  lemma StalledIsMissed(w: W, s: Step, t: string)
    requires Inv(w) && Enabled(w, s) && Stalls(w, s, t)
    ensures Held(w, t) != [] && Missed(Next(w, s), t, Held(w, t)[0].tid)
  {
    StalledMoves(w, s, t);
    hide Next, Enabled, Inv, Log, Held, High, Stalls, CommitOk, TableOk, GenOk, StreamsOk, CallOk;
    InvBase(w);
    HighStep(w, s, w.me, t);
    CallEffects(w, s);
    InLine(w, t);
    assert Held(w, t)[0] in Held(w, t);
    Beheaded(Held(w, t), Held(Next(w, s), t));
  }

  lemma StalledMoves(w: W, s: Step, t: string)
    requires Inv(w) && Enabled(w, s) && Stalls(w, s, t)
    ensures Log(Next(w, s), t) == Log(w, t)
    ensures Held(w, t) != [] && Held(w, t) == [Held(w, t)[0]] + Held(Next(w, s), t)
  {
    hide Next, Inv, Log, Held, Handle, NextFrame, Readable, Stranded;
    ReadMoves(w, s, t);
    OneFrame(t, NextFrame(w));
    StrandedIsHeld(w.rx, NextFrame(w).data);
    OnOne(t, NextFrame(w).data);
    assert Log(w, t) + [] == Log(w, t);
  }

  lemma Beheaded(held: seq<DataMessage>, rest: seq<DataMessage>)
    requires Ascending(held) && held != [] && held == [held[0]] + rest
    ensures forall x <- rest :: held[0].tid < x.tid
  {
    assert forall i | 0 <= i < |rest| :: rest[i] == held[i + 1];
  }

  lemma StrandedIsHeld(rx: RxState, m: DataMessage)
    requires Stranded(rx, m)
    ensures Handle(rx, Reliable(m)).dispatched == []
  {
    hide MakeCompositeKey;
  }

  /** Whatever way a step loses a frame, a tid is missed that is newer than any commit the
      subscriber had caught up with. */
  lemma LossIsMissed(w: W, s: Step, t: string, from: nat) returns (n: nat)
    requires Inv(w) && Enabled(w, s) && Younger(w, t, from) && Loses(w, s, t)
    ensures from < n && Missed(Next(w, s), t, n)
  {
    hide Next, Enabled, Inv, Missed, TakenStep, GoesAstray, Held, SeqOf, Stalls;
    if !TakenStep(w, s, t) {
      SkippedIsMissed(w, s, t);
      n := SeqOf(w, t) + 1;
    } else if GoesAstray(w, s, t) {
      AstrayIsMissed(w, s, t);
      n := SeqOf(w, t) + 1;
    } else {
      if CutsOff(w, s, t) {
        CutOffIsMissed(w, s, t);
      } else {
        StalledIsMissed(w, s, t);
      }
      n := Held(w, t)[0].tid;
      assert Held(w, t)[0] in Held(w, t);
    }
  }

  lemma {:induction false} SomethingMissed(w: W, steps: seq<Step>, t: string, from: nat) returns (n: nat)
    requires Inv(w) && Possible(w, steps) && Younger(w, t, from) && !NothingLost(w, steps, t)
    ensures from < n && Missed(After(w, steps), t, n)
    decreases |steps|
  {
    hide Next, Enabled, Inv, Missed, Younger, Loses;
    var w1 := Next(w, steps[0]);
    InvStep(w, steps[0]);
    if Loses(w, steps[0], t) {
      n := LossIsMissed(w, steps[0], t, from);
      MissedRun(w1, steps[1..], t, n);
    } else {
      YoungerStep(w, steps[0], t, from);
      n := SomethingMissed(w1, steps[1..], t, from);
    }
  }

  /** A missed tid is a Sent frame that was not delivered. */
  lemma MissedShows(w: W, e: W, t: string, n: nat)
    requires Inv(e) && e.call.None? && SeqOf(w, t) < n && Missed(e, t, n)
    ensures !ExactlySent(w, e, t)
  {
    hide Inv, On, Held;
    InvBase(e);
    hide TableOk, GenOk, CallOk, StreamsOk;
    assert TopicOk(e, t);
    var sent, from := On(t, e.sent), SeqOf(w, t);
    var x := sent[n - 1];
    assert Suffix(sent, from)[n - 1 - from] == x;
    assert x !in Log(e, t) && x in Suffix(sent, from);
    assert x in Log(w, t) + Suffix(sent, from);
  }

  /** Main theorem. Over any run, whatever refusals, failures, cancellations, re-dials,
      cleanups, other subscribers and other topics' traffic it holds: once drained, the
      subscriber that was caught up on `t` has delivered exactly the frames of the Sent
      calls on `t` since, in order, if and only if no step of the run lost one. */
  lemma LosslessIff(w: W, steps: seq<Step>, t: string)
    requires Inv(w) && CaughtUp(w, t) && Possible(w, steps)
    requires After(w, steps).call.None? && Held(After(w, steps), t) == []
    ensures ExactlySent(w, After(w, steps), t) <==> NothingLost(w, steps, t)
  {
    hide After, Inv, Possible, NothingLost, Ready, Took, ExactlySent, SeqOf, Held;
    if NothingLost(w, steps, t) {
      LosslessRun(w, steps, t);
    } else {
      var n := SomethingMissed(w, steps, t, SeqOf(w, t));
      InvRun(w, steps);
      MissedShows(w, After(w, steps), t, n);
    }
  }

  /** In particular from the start: all that was Sent is delivered, or some step lost it. */
  lemma LosslessFromStart(uid: nat, me: SubscriberKey, limits: Limits, steps: seq<Step>, t: string)
    requires Coherent(limits) && Possible(Start(uid, me, limits), steps)
    requires var e := After(Start(uid, me, limits), steps); e.call.None? && Held(e, t) == []
    ensures var e := After(Start(uid, me, limits), steps);
            On(t, e.out) == On(t, e.sent) <==> NothingLost(Start(uid, me, limits), steps, t)
  {
    var w := Start(uid, me, limits);
    StartCaughtUp(uid, me, limits, t);
    StartInv(uid, me, limits);
    hide Start, After, Inv, Possible, NothingLost, On, Held, CaughtUp;
    LosslessIff(w, steps, t);
    var e := After(w, steps);
    assert [] + On(t, e.sent) == On(t, e.sent) == On(t, e.sent)[0..];
  }

  lemma StartCaughtUp(uid: nat, me: SubscriberKey, limits: Limits, t: string)
    ensures var w := Start(uid, me, limits); CaughtUp(w, t) && SeqOf(w, t) == 0 && Log(w, t) == []
  {
    assert Of(t, []) == [];
  }
}
