/** The send method and the state machine agree: a call whose steps run uninterrupted
    commits, or not, exactly as the method's verdict says, and leaves every stream as the
    method's fan-out does. */
module SendRefinement {
  import opened Keys
  import opened Numbers
  import opened Window
  import opened Receiver
  import opened Reactor
  import opened World
  import Pub = Publisher
  import P = ReactorProtocol

  type Table = map<SubscriberKey, R<Frame>>

  /** The subscriber table of the machine, as the service's methods see it. */
  function TableOf(w: W): Table {
    map k | k in w.table && w.table[k] < |w.streams| :: w.streams[w.table[k]].sys.r
  }

  function Among(subs: seq<SubscriberKey>): set<SubscriberKey> { set k | k in subs }

  /** The push that comes next leaves its thread to start a write. */
  predicate Kicks(w: W)
    requires Enabled(w, PushNext)
  {
    var key := w.call.value.todo[0];
    key in w.table && w.table[key] < |w.streams|
    && EnqueueSection(w.streams[w.table[key]].sys.r, Reliable(w.call.value.m)).needWrite
  }

  function KickStep(w: W): Step
    requires Enabled(w, PushNext) && Kicks(w)
  {
    React(w.table[w.call.value.todo[0]], P.Kick)
  }

  lemma KickFollows(w: W)
    requires Enabled(w, PushNext) && Kicks(w)
    ensures Enabled(Next(w, PushNext), KickStep(w))
  {
  }

  /** One pushData call without interference: the enqueue section, then its write. */
  function PushSteps(w: W): seq<Step>
    requires Enabled(w, PushNext)
  {
    if Kicks(w) then [PushNext, KickStep(w)] else [PushNext]
  }

  function AfterPush(w: W): W
    requires Enabled(w, PushNext)
  {
    if Kicks(w) then KickFollows(w); Next(Next(w, PushNext), KickStep(w)) else Next(w, PushNext)
  }

  lemma AfterPushCall(w: W)
    requires Enabled(w, PushNext)
    ensures var c := w.call.value; var w' := AfterPush(w);
            && w'.call.Some? && w'.call.value.m == c.m && w'.call.value.todo == c.todo[1..]
            && w'.call.value.acceptedAny == (c.acceptedAny || PushStatus(w, c.todo[0], c.m) == Accepted)
            && w'.seqs == w.seqs && w'.sent == w.sent
  {
    hide Next, Enabled, Kicks, KickStep, PushStatus;
    PushEnabled(w);
    CallEffects(w, PushNext);
    if Kicks(w) {
      KickFollows(w);
      KickIs(w);
      CallEffects(Next(w, PushNext), KickStep(w));
    }
  }

  lemma PushEnabled(w: W)
    requires Enabled(w, PushNext)
    ensures w.call.Some? && w.call.value.todo != []
  {
  }

  lemma KickIs(w: W)
    requires Enabled(w, PushNext) && Kicks(w)
    ensures KickStep(w).React?
  {
  }

  /** The whole call from its first push on. */
  function CallSteps(w: W): seq<Step>
    requires w.call.Some?
    decreases |w.call.value.todo|
  {
    if w.call.value.todo == [] then [End]
    else
      AfterPushCall(w);
      PushSteps(w) + CallSteps(AfterPush(w))
  }

  function SendSteps(w: W, begin: Step): seq<Step>
    requires begin.Begin? && Enabled(w, begin)
  {
    [begin] + CallSteps(Next(w, begin))
  }

  // --------------------------------------------------------------------- one push

  lemma AnswersAgree(w: W, key: SubscriberKey, m: DataMessage)
    ensures Pub.Answer(TableOf(w), key, Reliable(m)) == PushStatus(w, key, m)
  {
  }

  /** What the two steps do to one stream. */
  lemma PushedStream(w: W, i: nat)
    requires Enabled(w, PushNext) && i < |w.streams|
    ensures var c := w.call.value; var w' := AfterPush(w); var r := w.streams[i].sys.r;
            && i < |w'.streams| == |w.streams| && w'.table == w.table
            && w'.streams[i].sys.r
               == if c.todo[0] in w.table && w.table[c.todo[0]] == i then EnqueueCall(r, Reliable(c.m)) else r
  {
    hide EnqueueSection, StartWriteSection;
  }

  lemma PushMovesTable(w: W)
    requires TableOk(w) && Enabled(w, PushNext)
    ensures var c := w.call.value;
            TableOf(AfterPush(w)) == Pub.Pushed(TableOf(w), {c.todo[0]}, Reliable(c.m))
  {
    hide AfterPush, EnqueueCall, StreamOk;
    var key, w' := w.call.value.todo[0], AfterPush(w);
    SameSize(w);
    forall k: SubscriberKey | k in w.table && w.table[k] < |w.streams|
      ensures w'.streams[w.table[k]].sys.r
           == if k == key then EnqueueCall(w.streams[w.table[k]].sys.r, Reliable(w.call.value.m))
              else w.streams[w.table[k]].sys.r
    {
      PushedStream(w, w.table[k]);
      assert EntryOk(w, k) && EntryOk(w, key);
    }
  }

  lemma SameSize(w: W)
    requires Enabled(w, PushNext)
    ensures |AfterPush(w).streams| == |w.streams| && AfterPush(w).table == w.table
  {
    hide P.Next;
  }

  lemma AfterPushTableOk(w: W)
    requires TableOk(w) && Enabled(w, PushNext)
    ensures TableOk(AfterPush(w))
  {
    hide Next, Enabled, TableOk, Kicks, KickStep;
    TableStep(w, PushNext);
    if Kicks(w) {
      KickFollows(w);
      TableStep(Next(w, PushNext), KickStep(w));
    }
  }

  // ------------------------------------------------------------------- whole calls

  lemma PushOpens(w: W, rest: seq<Step>)
    requires Enabled(w, PushNext) && Possible(AfterPush(w), rest)
    ensures Possible(w, PushSteps(w) + rest) && After(w, PushSteps(w) + rest) == After(AfterPush(w), rest)
  {
    hide Next, Enabled, Possible, After, Kicks, KickStep;
    if Kicks(w) {
      KickFollows(w);
      StepOpens(Next(w, PushNext), KickStep(w), rest);
      StepOpens(w, PushNext, [KickStep(w)] + rest);
      assert PushSteps(w) + rest == [PushNext] + ([KickStep(w)] + rest);
    } else {
      StepOpens(w, PushNext, rest);
    }
  }

  lemma EndKeepsTable(w: W)
    requires Enabled(w, End)
    ensures TableOf(Next(w, End)) == TableOf(w)
  {
  }

  /** Some subscriber takes the frame. */
  predicate Taken(t: Table, subs: seq<SubscriberKey>, m: DataMessage) {
    Pub.Somebody(t, Among(subs), Reliable(m), Accepted)
  }

  lemma TakenRest(t: Table, subs: seq<SubscriberKey>, m: DataMessage)
    requires subs != [] && NoDup(subs)
    ensures var f := Reliable(m); var t' := Pub.Pushed(t, {subs[0]}, f);
            && (Taken(t, subs, m) <==> Pub.Answer(t, subs[0], f) == Accepted || Taken(t', subs[1..], m))
            && Pub.Pushed(t', Among(subs[1..]), f) == Pub.Pushed(t, Among(subs), f)
  {
    hide EnqueueSection, EnqueueCall;
    assert Among(subs) == Among(subs[1..]) + {subs[0]} && subs[0] !in Among(subs[1..]);
    Pub.SomebodyMore(t, Among(subs[1..]), subs[0], Reliable(m), Accepted);
  }

  lemma NobodyTakes(t: Table, m: DataMessage)
    ensures !Taken(t, [], m) && Pub.Pushed(t, Among([]), Reliable(m)) == t
  {
  }

  lemma {:induction false} CallRuns(w: W)
    requires TableOk(w) && w.call.Some? && NoDup(w.call.value.todo)
    ensures Possible(w, CallSteps(w))
    ensures var c := w.call.value;
            var w' := After(w, CallSteps(w));
            var sent := c.acceptedAny || Taken(TableOf(w), c.todo, c.m);
            && w'.call.None?
            && w'.seqs == (if sent then w.seqs[TopicOf(c.m) := c.m.tid] else w.seqs)
            && w'.sent == (if sent then w.sent + [c.m] else w.sent)
            && TableOf(w') == Pub.Pushed(TableOf(w), Among(c.todo), Reliable(c.m))
    decreases |w.call.value.todo|
  {
    hide Next, TableOk, Taken, Pub.Pushed, TableOf, PushStatus, AfterPush, PushSteps, Possible, After,
         Among, MakeCompositeKey;
    var c := w.call.value;
    if c.todo == [] {
      NobodyTakes(TableOf(w), c.m);
      OneStep(w, End);
      EndKeepsTable(w);
      CallEffects(w, End);
    } else {
      AfterPushCall(w);
      AfterPushTableOk(w);
      PushMovesTable(w);
      AnswersAgree(w, c.todo[0], c.m);
      TakenRest(TableOf(w), c.todo, c.m);
      CallRuns(AfterPush(w));
      PushOpens(w, CallSteps(AfterPush(w)));
    }
  }

  lemma BeginKeepsTable(w: W, begin: Step)
    requires begin.Begin? && Enabled(w, begin)
    ensures TableOf(Next(w, begin)) == TableOf(w)
    ensures NoDup(begin.subs) && Pub.NextTid(w.seqs, MakeCompositeKey(begin.topicName, begin.messageType))
         == SeqOf(w, MakeCompositeKey(begin.topicName, begin.messageType)) + 1
  {
    hide MakeCompositeKey;
  }

  /** Main link: from any reachable table the uninterrupted call moves the committed
      sequence and the log of sent frames exactly on the verdict `Sent`, and pushes to
      every stream exactly what the fan-out pushes. */
  lemma UninterruptedSend(w: W, topicName: string, messageType: string, payload: seq<byte>, subs: seq<SubscriberKey>)
    requires TableOk(w) && Enabled(w, Begin(topicName, messageType, payload, subs))
    ensures var steps := SendSteps(w, Begin(topicName, messageType, payload, subs));
            var topic := MakeCompositeKey(topicName, messageType);
            var m := DataMessage(w.uid, Pub.NextTid(w.seqs, topic), topicName, messageType, payload);
            var sent := Pub.Verdict(TableOf(w), Among(subs), Reliable(m)) == Pub.Sent;
            && Possible(w, steps)
            && var w' := After(w, steps);
               && w'.call.None?
               && w'.seqs == (if sent then w.seqs[topic := m.tid] else w.seqs)
               && w'.sent == (if sent then w.sent + [m] else w.sent)
               && TableOf(w') == Pub.Pushed(TableOf(w), Among(subs), Reliable(m))
  {
    hide Next, TableOk, MakeCompositeKey, Possible, After, TableOf, Pub.Pushed, Pub.Somebody, CallSteps,
         Among, Pub.NextTid, SeqOf;
    var begin := Begin(topicName, messageType, payload, subs);
    CallEffects(w, begin);
    TableStep(w, begin);
    BeginKeepsTable(w, begin);
    CallRuns(Next(w, begin));
    StepOpens(w, begin, CallSteps(Next(w, begin)));
  }
}
