/** Ways to publish, and to stay connected, under which nothing is lost: which steps of
    the lossless theorem each of them rules out. */
module Disciplines {
  import opened Keys
  import opened Window
  import opened Receiver
  import opened Reactor
  import opened World
  import opened Ordering
  import opened EndToEnd
  import opened Lossless
  import P = ReactorProtocol

  /** The observed subscriber's current stream is live and registered. */
  predicate Serving(w: W, g: nat) {
    && w.gen == Some(g) && g < |w.streams|
    && w.streams[g].key == w.me && w.streams[g].registered && IsLive(w.streams[g].sys.r)
  }

  /** In single mode nobody else is live; a commit then rests on `me` alone. */
  ghost predicate SingleMode(w: W, t: string) {
    && (forall key <- w.table :: key != w.me && w.table[key] < |w.streams| ==> !IsLive(w.streams[w.table[key]].sys.r))
    && (CallOn(w, t) && w.call.value.acceptedAny ==> Took(w, t))
  }

  /** In gated mode a call on `t` still has `me` ahead, sendable, or was accepted by it. */
  predicate GatedMode(w: W, g: nat, t: string)
    requires g < |w.streams|
  {
    CallOn(w, t) ==> (w.me in w.call.value.todo && IsSendable(w.streams[g].sys.r)) || Took(w, t)
  }

  /** With the probe at the push, a call on `t` has `me` still ahead or was accepted by it. */
  predicate PushMode(w: W, t: string) { CallOn(w, t) ==> w.me in w.call.value.todo || Took(w, t) }

  /** Ways to publish on one topic: `me` is the only live subscriber; each call lists `me`
      and is probed before it starts; or `me` is sendable at the moment it is pushed to. */
  datatype Discipline = Single | ProbedCall | ProbedPush

  /** What each discipline keeps away from: that somebody else goes live; a call on `t`
      that skips `me` or its probe, and a presence push to `me` before its own push; a
      call on `t` that skips `me`, and a push to it while it is not sendable. */
  ghost predicate Guarded(w: W, s: Step, g: nat, t: string, d: Discipline)
    requires Enabled(w, s) && g < |w.streams|
  {
    match d
    case Single =>
      forall key <- Next(w, s).table :: key != w.me && Next(w, s).table[key] < |Next(w, s).streams| ==>
        !IsLive(Next(w, s).streams[Next(w, s).table[key]].sys.r)
    case ProbedCall =>
      && (s.Begin? && MakeCompositeKey(s.topicName, s.messageType) == t ==>
           w.me in s.subs && IsSendable(w.streams[g].sys.r))
      && (s == Step.Presence(g) ==> !CallOn(w, t))
    case ProbedPush =>
      && (s.Begin? && MakeCompositeKey(s.topicName, s.messageType) == t ==> w.me in s.subs)
      && (s.PushNext? && CallOn(w, t) && w.call.value.todo[0] == w.me ==> IsSendable(w.streams[g].sys.r))
  }

  ghost predicate Mode(w: W, g: nat, t: string, d: Discipline)
    requires g < |w.streams|
  {
    match d
    case Single => SingleMode(w, t)
    case ProbedCall => GatedMode(w, g, t)
    case ProbedPush => PushMode(w, t)
  }

  lemma DeadRefuses(w: W, key: SubscriberKey, m: DataMessage)
    requires key in w.table && w.table[key] < |w.streams| ==> !IsLive(w.streams[w.table[key]].sys.r)
    ensures PushStatus(w, key, m) != Accepted
  {
  }

  lemma SingleStep(w: W, s: Step, g: nat, t: string)
    requires Enabled(w, s) && CallOk(w) && g < |w.streams| && SingleMode(w, t) && Guarded(w, s, g, t, Single)
    ensures SingleMode(Next(w, s), t)
  {
    CallEffects(w, s);
    hide Next, MakeCompositeKey;
    if s.PushNext? && w.call.value.todo[0] != w.me {
      DeadRefuses(w, w.call.value.todo[0], w.call.value.m);
    }
  }

  /** Nothing but a push shrinks the room of a live stream. */
  lemma SendableStays(w: W, s: Step, g: nat)
    requires Enabled(w, s) && g < |w.streams| && IsSendable(w.streams[g].sys.r) && IsLive(Next(w, s).streams[g].sys.r)
    requires var a := ActionOn(w, s, g); a.Some? ==> !a.value.Push?
    ensures IsSendable(Next(w, s).streams[g].sys.r)
  {
    StreamMoves(w, s, g);
    hide Next;
    var a := ActionOn(w, s, g);
    if a.Some? {
      StillSendable(w.streams[g].sys, a.value);
    }
  }

  lemma StillSendable(sys: P.Sys<Frame>, a: P.Action<Frame>)
    requires P.Enabled(sys, a) && !a.Push? && IsSendable(sys.r) && IsLive(P.Next(sys, a).r)
    ensures IsSendable(P.Next(sys, a).r)
  {
  }

  lemma GatedStep(w: W, s: Step, g: nat, t: string)
    requires Enabled(w, s) && CallOk(w) && TableOk(w) && Serving(w, g) && Serving(Next(w, s), g)
    requires GatedMode(w, g, t) && Guarded(w, s, g, t, ProbedCall)
    ensures GatedMode(Next(w, s), g, t)
  {
    CallEffects(w, s);
    assert StreamOk(w, g);
    hide Next, MakeCompositeKey, P.Next;
    if s.Begin? {
      if CallOn(Next(w, s), t) {
        SendableStays(w, s, g);
      }
    } else if CallOn(w, t) && w.me in w.call.value.todo {
      if s.PushNext? && w.call.value.todo[0] == w.me {
        assert w.table[w.me] == g;
      } else {
        if s.PushNext? {
          assert EntryOk(w, w.call.value.todo[0]);
          assert w.me in w.call.value.todo[1..];
        }
        SendableStays(w, s, g);
      }
    }
  }

  lemma PushModeStep(w: W, s: Step, g: nat, t: string)
    requires Enabled(w, s) && TableOk(w) && Serving(w, g)
    requires PushMode(w, t) && Guarded(w, s, g, t, ProbedPush)
    ensures PushMode(Next(w, s), t)
  {
    CallEffects(w, s);
    assert StreamOk(w, g);
    hide Next, MakeCompositeKey;
  }

  lemma ModeStep(w: W, s: Step, g: nat, t: string, d: Discipline)
    requires Enabled(w, s) && CallOk(w) && TableOk(w) && Serving(w, g) && Serving(Next(w, s), g)
    requires Mode(w, g, t, d) && Guarded(w, s, g, t, d)
    ensures Mode(Next(w, s), g, t, d)
  {
    hide Next, Enabled, CallOk, TableOk, GatedMode, SingleMode, PushMode, Guarded;
    match d
    case Single => SingleStep(w, s, g, t);
    case ProbedCall => GatedStep(w, s, g, t);
    case ProbedPush => PushModeStep(w, s, g, t);
  }


  lemma ModeTakes(w: W, s: Step, g: nat, t: string, d: Discipline)
    requires Enabled(w, s) && g < |w.streams| && Mode(w, g, t, d)
    ensures TakenStep(w, s, t)
  {
  }


  /** The subscriber stays on one live stream. */
  ghost predicate AllServed(w: W, steps: seq<Step>, g: nat)
    requires Possible(w, steps)
    decreases |steps|
  {
    steps != [] ==>
      && Serving(w, g) && Serving(Next(w, steps[0]), g) && !Redials(w, steps[0])
      && AllServed(Next(w, steps[0]), steps[1..], g)
  }

  ghost predicate AllGuarded(w: W, steps: seq<Step>, g: nat, t: string, d: Discipline)
    requires Possible(w, steps)
    decreases |steps|
  {
    steps != [] ==>
      g < |w.streams| && Guarded(w, steps[0], g, t, d) && AllGuarded(Next(w, steps[0]), steps[1..], g, t, d)
  }

  /** No frame of `t` that is read is stranded without a window. */
  ghost predicate NoStall(w: W, steps: seq<Step>, t: string)
    requires Possible(w, steps)
    decreases |steps|
  {
    steps != [] ==> !Stalls(w, steps[0], t) && NoStall(Next(w, steps[0]), steps[1..], t)
  }

  lemma ServedIsLinked(w: W, g: nat)
    requires TableOk(w) && Serving(w, g)
    ensures Linked(w)
  {
    assert StreamOk(w, g);
  }

  /** A push to the observed subscriber is accepted exactly when its stream is sendable. */
  lemma PushTakenIffSendable(w: W, g: nat, m: DataMessage)
    requires TableOk(w) && Serving(w, g)
    ensures PushStatus(w, w.me, m) == Accepted <==> IsSendable(w.streams[g].sys.r)
  {
    assert StreamOk(w, g);
  }

  /** Served and guarded, a step loses a frame only where a read stalls. */
  lemma {:induction false} OnlyStallsLose(w: W, steps: seq<Step>, g: nat, t: string, d: Discipline)
    requires Inv(w) && Possible(w, steps) && AllServed(w, steps, g) && AllGuarded(w, steps, g, t, d)
    requires g < |w.streams| && Mode(w, g, t, d)
    ensures NothingLost(w, steps, t) <==> NoStall(w, steps, t)
    decreases |steps|
  {
    hide Next, Enabled, Inv, Mode, Guarded, TakenStep, Stalls, Serving, Redials, Linked, PushedToMe, Held,
         CallOk, TableOk, CommitOk, GenOk, StreamsOk;
    if steps != [] {
      InvBase(w);
      ServedIsLinked(w, g);
      ModeTakes(w, steps[0], g, t, d);
      ModeStep(w, steps[0], g, t, d);
      InvStep(w, steps[0]);
      StillThere(w, steps[0], g);
      OnlyStallsLose(Next(w, steps[0]), steps[1..], g, t, d);
    }
  }

  lemma StillThere(w: W, s: Step, g: nat)
    requires Enabled(w, s) && g < |w.streams|
    ensures g < |Next(w, s).streams|
  {
    StreamMoves(w, s, g);
  }

  /** With one live subscriber, with calls probed before they start and kept clear of
      presence, or with `me` sendable at each push to it, a subscriber that stays connected
      gets every Sent frame, if and only if no frame finds neither window nor marker. */
  lemma LosslessStretch(w: W, steps: seq<Step>, g: nat, t: string, d: Discipline)
    requires Inv(w) && CaughtUp(w, t) && w.call.None? && g < |w.streams| && (d.Single? ==> SingleMode(w, t))
    requires Possible(w, steps) && AllServed(w, steps, g) && AllGuarded(w, steps, g, t, d)
    requires After(w, steps).call.None? && Held(After(w, steps), t) == []
    ensures ExactlySent(w, After(w, steps), t) <==> NoStall(w, steps, t)
  {
    assert Mode(w, g, t, d) by { hide SingleMode, IsSendable; }
    hide After, Inv, Possible, NothingLost, NoStall, AllServed, AllGuarded, CaughtUp, Held,
         ExactlySent, SingleMode, Mode;
    OnlyStallsLose(w, steps, g, t, d);
    LosslessIff(w, steps, t);
  }

  // ------------------------------------------------------------ when reads stall

  predicate AllOn(t: string, fs: seq<Frame>) { forall f <- fs | f.Reliable? :: TopicOf(f.data) == t }

  /** `t` is the only topic the subscriber is sent. */
  predicate Solo(w: W, t: string) { AllOn(t, Pending(w)) && (w.call.Some? ==> CallOn(w, t)) }

  /** The topic has a window, or its next tid is 1, or it is bound to spend the re-dial
      marker. */
  predicate Based(w: W, t: string, next: nat, solo: bool) {
    || WindowKey(w.uid, t) in w.rx.windows || next == 1
    || (solo && w.uid in w.rx.freshPublishers && Solo(w, t))
  }

  /** Neither loses a frame on its way to the subscriber, nor times the publisher out, nor
      publishes on another topic where `t` is to be the only one. */
  predicate Undisturbed(w: W, s: Step, t: string, solo: bool)
    requires Enabled(w, s)
  {
    && TakenStep(w, s, t) && !GoesAstray(w, s, t) && !CutsOff(w, s, t)
    && (s.Cleanup? ==> w.uid !in s.uids)
    && (solo && s.Begin? ==> MakeCompositeKey(s.topicName, s.messageType) == t)
  }

  ghost predicate AllUndisturbed(w: W, steps: seq<Step>, t: string, solo: bool)
    requires Possible(w, steps)
    decreases |steps|
  {
    steps != [] ==> Undisturbed(w, steps[0], t, solo) && AllUndisturbed(Next(w, steps[0]), steps[1..], t, solo)
  }

  lemma BasedReads(w: W, s: Step, t: string, n: nat, base: seq<DataMessage>, solo: bool)
    requires Inv(w) && Enabled(w, s) && s.Read? && Even(w, t, n, base) && Based(w, t, Due(w, t, n, base), solo)
    ensures !Stalls(w, s, t)
  {
    hide Next, Inv, Even, Due, Handle, MakeCompositeKey, UidPrefix;
    if Stalls(w, s, t) {
      ReadNeedsStream(w, s);
      NextIsNew(w, s, t, n, base, NextFrame(w).data);
    }
  }

  /** A read leaves every window in place and opens that of its own topic. */
  lemma WindowsGrow(rx: RxState, f: Frame)
    ensures var o := Handle(rx, f);
            && rx.windows.Keys <= o.state.windows.Keys
            && (f.Presence? ==> o.state == rx)
            && (f.Reliable? ==> KeyOf(f.data) in o.state.windows)
  {
    hide Arrive;
  }

  lemma BasedRead(w: W, s: Step, t: string, n: nat, base: seq<DataMessage>, solo: bool)
    requires Inv(w) && Enabled(w, s) && s.Read? && |base| <= |Log(w, t)| && Based(w, t, Due(w, t, n, base), solo)
    ensures Based(Next(w, s), t, Due(Next(w, s), t, n, base), solo)
  {
    hide Next, Inv, Log, Held, Handle, On, Of, NextFrame, Readable, MakeCompositeKey, UidPrefix, Pending;
    ReadMoves(w, s, t);
    OneFrame(t, NextFrame(w));
    ClientEffects(w, s);
    CallEffects(w, s);
    WindowsGrow(w.rx, NextFrame(w));
    PendingHead(w, Next(w, s));
    var f := NextFrame(w);
    if f.Reliable? && TopicOf(f.data) == t {
      OtherUid(w);
    } else {
      assert Log(w, t) + [] == Log(w, t);
      assert f in Pending(w) && forall x <- Pending(Next(w, s)) :: x in Pending(w);
    }
  }

  lemma SoloStep(w: W, s: Step, t: string)
    requires Inv(w) && Enabled(w, s) && !s.Read? && Solo(w, t)
    requires s.Begin? ==> MakeCompositeKey(s.topicName, s.messageType) == t
    ensures Solo(Next(w, s), t)
  {
    hide Next, Inv, Pending, Coming, CommitOk, GenOk, StreamsOk, CallOk, TableOk, MakeCompositeKey, Linked, PushStatus;
    InvBase(w);
    CallEffects(w, s);
    if Redials(w, s) {
      NothingPending(w, s);
    } else {
      PendingGrows(w, s);
      WhoPushes(w, s);
    }
  }

  lemma NothingPending(w: W, s: Step)
    requires Enabled(w, s) && Redials(w, s)
    ensures Pending(Next(w, s)) == []
  {
    ClientEffects(w, s);
    FirstAccepts(w, s);
    hide Next, Enabled;
  }

  lemma BasedOther(w: W, s: Step, t: string, n: nat, base: seq<DataMessage>, solo: bool)
    requires Inv(w) && Enabled(w, s) && !s.Read? && Undisturbed(w, s, t, solo) && |base| <= |Log(w, t)|
    requires Based(w, t, Due(w, t, n, base), solo)
    ensures Based(Next(w, s), t, Due(Next(w, s), t, n, base), solo)
  {
    hide Next, Enabled, Inv, Log, Solo, TakenStep, GoesAstray, CutsOff, NoteEstablished, Prune, MakeCompositeKey;
    ClientEffects(w, s);
    CallEffects(w, s);
    if Redials(w, s) {
      DialMoves(w, s, t);
    } else {
      OthersMove(w, s, t);
    }
    KeysStay(w.rx, w.uid, t, if s.Dial? then s.noted else 0, if s.Cleanup? then s.uids else {});
    if solo && Solo(w, t) {
      SoloStep(w, s, t);
    }
  }

  /** Dials keep every window, and the cleaner those of publishers that are not timed out. */
  lemma KeysStay(rx: RxState, uid: nat, t: string, noted: nat, uids: set<nat>)
    requires uid !in uids
    ensures var key := WindowKey(uid, t);
            && (key in rx.windows ==> key in NoteEstablished(rx, noted).windows && key in Prune(rx, uids).windows)
            && rx.freshPublishers <= NoteEstablished(rx, noted).freshPublishers
            && rx.freshPublishers == Prune(rx, uids).freshPublishers
  {
    forall other | other in uids ensures !StartsWith(WindowKey(uid, t), UidPrefix(other)) {
      PrefixIdentifiesUid(uid, t, other);
    }
  }

  lemma {:induction false} BasedRun(w: W, steps: seq<Step>, t: string, n: nat, base: seq<DataMessage>, solo: bool)
    requires Inv(w) && Possible(w, steps) && AllUndisturbed(w, steps, t, solo)
    requires Even(w, t, n, base) && Based(w, t, Due(w, t, n, base), solo)
    ensures NothingLost(w, steps, t)
    decreases |steps|
  {
    hide Next, Enabled, Inv, Based, Due, Stalls, TakenStep, GoesAstray, CutsOff, Ready, Log, Held, NewFrames, On;
    if steps != [] {
      var s := steps[0];
      if s.Read? {
        BasedReads(w, s, t, n, base, solo);
        BasedRead(w, s, t, n, base, solo);
      } else {
        OnlyReadsStall(w, s, t);
        BasedOther(w, s, t, n, base, solo);
      }
      EvenStep(w, s, t, n, base);
      InvStep(w, s);
      BasedRun(Next(w, s), steps[1..], t, n, base, solo);
    }
  }

  lemma OnlyReadsStall(w: W, s: Step, t: string)
    requires Enabled(w, s) && !s.Read?
    ensures !Stalls(w, s, t)
  {
  }

  /** On a based topic a read stalls only after a loss, or a cleanup of the publisher: without
      these it does not, once the topic has a window, or with no commit yet, or while the
      topic, published on alone, is bound to spend the re-dial marker. A topic that is not
      based may stall without either: see Witnesses.LateJoinerStalls. */
  lemma StallNeedsCleanup(w: W, steps: seq<Step>, t: string, solo: bool)
    requires Inv(w) && CaughtUp(w, t) && Possible(w, steps) && AllUndisturbed(w, steps, t, solo)
    requires Based(w, t, SeqOf(w, t) + 1, solo)
    ensures NothingLost(w, steps, t)
  {
    hide Inv, CaughtUp, Possible, AllUndisturbed, Based, NothingLost, SeqOf, Log, Even;
    EvenStart(w, t);
    BasedRun(w, steps, t, SeqOf(w, t), Log(w, t), solo);
  }

  // ---------------------------------------------------------------------- dialing

  /** When a dial lets the subscriber start over. Under the publisher's own uid always, on
      every topic; under a uid made up for a static seed, exactly on the topics whose
      window was in line. */
  lemma RedialCatchesUp(w: W, noted: nat, t: string)
    requires !Took(w, t)
    ensures CaughtUp(Next(w, Dial(w.me, noted)), t) <==> noted == w.uid || Ready(w.rx, w.uid, t, SeqOf(w, t) + 1)
  {
    var s := Dial(w.me, noted);
    var w' := Next(w, s);
    ClientEffects(w, s);
    CallEffects(w, s);
    DialMoves(w, s, t);
    PrefixIdentifiesUid(w.uid, t, noted);
    hide Next, Held, MakeCompositeKey, UidPrefix;
    assert Took(w', t) == Took(w, t) && SeqOf(w', t) == SeqOf(w, t);
    hide Took, SeqOf;
  }

  /** A dial and its registration serve the subscriber; from then on it can only lose what
      the lossless theorem names. A topic that has a window when the publisher is dialed
      under its own uid is based as well. */
  lemma RedialServes(w: W, noted: nat, t: string)
    requires Inv(w) && w.call.None?
    ensures var g := |w.streams|; var steps := [Dial(w.me, noted), Register(g)];
            && Possible(w, steps) && Inv(After(w, steps)) && Serving(After(w, steps), g)
            && (CaughtUp(After(w, steps), t) <==> noted == w.uid || Ready(w.rx, w.uid, t, SeqOf(w, t) + 1))
            && (WindowKey(w.uid, t) in w.rx.windows ==> Based(After(w, steps), t, SeqOf(w, t) + 1, false))
  {
    var g, d := |w.streams|, Dial(w.me, noted);
    var w1 := Next(w, d);
    DialAndRegister(w, noted);
    hide Next, Enabled, Inv, Possible, After, CaughtUp, Serving, Took, SeqOf, Held, MakeCompositeKey;
    TwoSteps(w, d, Register(g));
    InvRun(w, [d, Register(g)]);
    NotTaken(w, t);
    RedialCatchesUp(w, noted, t);
    InvStep(w, d);
    RegisterKeeps(w1, g, t);
    KeysStay(w.rx, w.uid, t, noted, {});
  }

  lemma NotTaken(w: W, t: string)
    requires w.call.None?
    ensures !Took(w, t)
  {
  }

  /** After a first dial, under whatever uid, every topic is caught up and based, and the
      subscriber is the only one. */
  lemma FirstDialServes(uid: nat, me: SubscriberKey, limits: Limits, noted: nat, t: string)
    requires Coherent(limits)
    ensures var steps := [Dial(me, noted), Register(0)];
            && Possible(Start(uid, me, limits), steps)
            && var w := After(Start(uid, me, limits), steps);
               Inv(w) && Serving(w, 0) && CaughtUp(w, t) && Based(w, t, 1, false) && SingleMode(w, t)
  {
    hide Next, Enabled, Inv, Possible, After, CaughtUp, Serving, SeqOf, Start;
    var w := Start(uid, me, limits);
    StartInv(uid, me, limits);
    StartEmpty(uid, me, limits, t);
    RedialServes(w, noted, t);
    DialAndRegister(w, noted);
    TwoSteps(w, Dial(me, noted), Register(0));
    var w1, w2 := Next(w, Dial(me, noted)), Next(Next(w, Dial(me, noted)), Register(0));
    CallEffects(w, Dial(me, noted));
    CallEffects(w1, Register(0));
    assert w2.call.None? && w2.me == me && w2.table.Keys == {me};
  }

  lemma StartEmpty(uid: nat, me: SubscriberKey, limits: Limits, t: string)
    ensures var w := Start(uid, me, limits);
            && w.call.None? && w.me == me && w.uid == uid && |w.streams| == 0 && w.table == map[]
            && Ready(w.rx, w.uid, t, SeqOf(w, t) + 1)
  {
  }

  lemma DialAndRegister(w: W, noted: nat)
    ensures var g, d := |w.streams|, Dial(w.me, noted);
            && Enabled(w, d) && Enabled(Next(w, d), Register(g))
            && Serving(Next(Next(w, d), Register(g)), g)
            && Next(Next(w, d), Register(g)).table == w.table[w.me := g]
            && Next(w, d).me == w.me && Next(w, d).uid == w.uid && Next(w, d).rx == NoteEstablished(w.rx, noted)
  {
    hide NoteEstablished, Handle, Prune, P.Next;
  }

  lemma RegisterKeeps(w: W, g: nat, t: string)
    requires Inv(w) && Enabled(w, Register(g))
    ensures var w' := Next(w, Register(g));
            && (CaughtUp(w', t) <==> CaughtUp(w, t)) && w'.rx == w.rx && w'.uid == w.uid
  {
    hide Next, Enabled, Inv, Held, Ready, Log, SeqOf, Took, MakeCompositeKey;
    var s := Register(g);
    ClientEffects(w, s);
    OthersMove(w, s, t);
    RegisterKeepsCall(w, g, t);
    assert Held(w, t) + [] == Held(w, t);
  }

  lemma RegisterKeepsCall(w: W, g: nat, t: string)
    requires Enabled(w, Register(g))
    ensures var w' := Next(w, Register(g));
            w'.uid == w.uid && Took(w', t) == Took(w, t) && SeqOf(w', t) == SeqOf(w, t)
            && Arriving(w, Register(g), t) == []
  {
    CallEffects(w, Register(g));
    hide Next, MakeCompositeKey;
  }

  lemma TwoSteps(w: W, s: Step, next: Step)
    requires Enabled(w, s) && Enabled(Next(w, s), next)
    ensures Possible(w, [s, next]) && After(w, [s, next]) == Next(Next(w, s), next)
  {
    hide Next, Enabled;
    OneStep(Next(w, s), next);
    assert [s, next][1..] == [next];
  }
}
