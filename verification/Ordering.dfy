/** End to end across reconnects: what the observed subscriber delivers per topic is
    strictly ascending over the whole run, and each delivered frame is the one that
    the single accepted publish call of its tid sent. */
module Ordering {
  import opened Keys
  import opened Numbers
  import opened Window
  import opened Receiver
  import opened Reactor
  import opened World
  import P = ReactorProtocol

  // ------------------------------------------------------------ per-topic views

  /** The frames of `ms` on `topic`, in order. */
  function On(topic: string, ms: seq<DataMessage>): seq<DataMessage>
    decreases |ms|
  {
    if ms == [] then []
    else On(topic, ms[..|ms| - 1]) + (if TopicOf(ms[|ms| - 1]) == topic then [ms[|ms| - 1]] else [])
  }

  function Datas(fs: seq<Frame>): seq<DataMessage>
    decreases |fs|
  {
    if fs == [] then []
    else Datas(fs[..|fs| - 1]) + (if fs[|fs| - 1].Reliable? then [fs[|fs| - 1].data] else [])
  }

  function Of(topic: string, fs: seq<Frame>): seq<DataMessage> { On(topic, Datas(fs)) }

  lemma {:induction false} OnConcat(topic: string, a: seq<DataMessage>, b: seq<DataMessage>)
    ensures On(topic, a + b) == On(topic, a) + On(topic, b)
    decreases |b|
  {
    if b == [] {
      assert a + b == a;
    } else {
      var init := b[..|b| - 1];
      assert (a + b)[..|a + b| - 1] == a + init;
      OnConcat(topic, a, init);
    }
  }

  lemma {:induction false} DatasConcat(a: seq<Frame>, b: seq<Frame>)
    ensures Datas(a + b) == Datas(a) + Datas(b)
    decreases |b|
  {
    if b == [] {
      assert a + b == a;
    } else {
      var init := b[..|b| - 1];
      assert (a + b)[..|a + b| - 1] == a + init;
      DatasConcat(a, init);
    }
  }

  lemma OfConcat(topic: string, a: seq<Frame>, b: seq<Frame>)
    ensures Of(topic, a + b) == Of(topic, a) + Of(topic, b)
  {
    DatasConcat(a, b);
    OnConcat(topic, Datas(a), Datas(b));
  }

  /** One more frame adds itself to its own topic and nothing to any other. */
  lemma OfAppend(topic: string, a: seq<Frame>, f: Frame)
    ensures Of(topic, a + [f]) == Of(topic, a) + Of(topic, [f])
    ensures Of(topic, [f]) == if f.Reliable? && TopicOf(f.data) == topic then [f.data] else []
  {
    OfConcat(topic, a, [f]);
    assert [f][..0] == [];
    if f.Reliable? {
      OnAppend(topic, [], f.data);
      assert [] + [f.data] == [f.data] == Datas([f]);
    } else {
      assert Datas([f]) == [];
    }
  }

  lemma OnAppend(topic: string, a: seq<DataMessage>, m: DataMessage)
    ensures On(topic, a + [m]) == if TopicOf(m) == topic then On(topic, a) + [m] else On(topic, a)
  {
    assert (a + [m])[..|a|] == a;
  }

  lemma {:induction false} OnMembers(topic: string, ms: seq<DataMessage>)
    ensures forall m <- On(topic, ms) :: m in ms && TopicOf(m) == topic
    decreases |ms|
  {
    if ms != [] {
      OnMembers(topic, ms[..|ms| - 1]);
    }
  }

  // ------------------------------------------------------------------- commits

  /** The committed sequence of `t` is the number of its Sent calls, and these carry
      1, 2, 3, ... */
  ghost predicate TopicOk(w: W, t: string) { Numbered(On(t, w.sent), SeqOf(w, t)) }

  predicate Numbered(ms: seq<DataMessage>, n: nat) {
    |ms| == n < MAX_U64 && forall j | 0 <= j < n :: ms[j].tid == j + 1
  }

  lemma NumberedAppend(ms: seq<DataMessage>, n: nat, m: DataMessage)
    requires Numbered(ms, n) && m.tid == n + 1 < MAX_U64
    ensures Numbered(ms + [m], n + 1)
  {
  }

  /** A call in progress carries the next tid and pushes to each subscriber once. */
  ghost predicate CallOk(w: W) {
    w.call.Some? ==>
      var c := w.call.value;
      && c.m.uid == w.uid && c.m.tid == SeqOf(w, TopicOf(c.m)) + 1 < MAX_U64
      && NoDup(c.todo) && (forall k <- c.todo :: k !in c.report)
      && (forall k <- c.report :: c.report[k] == Accepted ==> c.acceptedAny)
  }

  ghost predicate CommitOk(w: W) {
    CallOk(w) && forall t: string :: TopicOk(w, t)
  }

  predicate Commits(w: W, s: Step)
    requires Enabled(w, s)
  {
    s.End? && w.call.Some? && w.call.value.acceptedAny
  }

  lemma CommitEffects(w: W, s: Step)
    requires Enabled(w, s)
    ensures Next(w, s).uid == w.uid
    ensures Commits(w, s) ==>
      var m := w.call.value.m;
      Next(w, s).seqs == w.seqs[TopicOf(m) := m.tid] && Next(w, s).sent == w.sent + [m]
    ensures !Commits(w, s) ==> Next(w, s).seqs == w.seqs && Next(w, s).sent == w.sent
    ensures w.call.Some? && !s.End? ==>
      var c' := Next(w, s).call;
      c'.Some? && c'.value.m == w.call.value.m && (w.call.value.acceptedAny ==> c'.value.acceptedAny)
  {
    CallEffects(w, s);
    hide Next, MakeCompositeKey;
  }

  lemma TopicStep(w: W, s: Step, t: string)
    requires CallOk(w) && TopicOk(w, t) && Enabled(w, s)
    ensures TopicOk(Next(w, s), t)
  {
    hide Next, Enabled, On, Numbered, TopicOf;
    CommitEffects(w, s);
    if Commits(w, s) {
      var m := w.call.value.m;
      OnAppend(t, w.sent, m);
      if TopicOf(m) == t {
        NumberedAppend(On(t, w.sent), SeqOf(w, t), m);
      }
    }
  }

  lemma CallStep(w: W, s: Step)
    requires CallOk(w) && Enabled(w, s)
    ensures CallOk(Next(w, s))
  {
    CallEffects(w, s);
    hide Next, On, MakeCompositeKey;
  }

  lemma CommitStep(w: W, s: Step)
    requires CommitOk(w) && Enabled(w, s)
    ensures CommitOk(Next(w, s))
  {
    CallStep(w, s);
    hide Next, TopicOk;
    forall t: string ensures TopicOk(Next(w, s), t) {
      TopicStep(w, s, t);
    }
  }

  /** `x` is the frame of the one call that had its tid accepted: a committed one, or
      the call in progress once some subscriber accepted it. */
  predicate Known(w: W, x: DataMessage) {
    var sent := On(TopicOf(x), w.sent);
    && x.uid == w.uid && 1 <= x.tid < MAX_U64
    && ((x.tid <= |sent| && sent[x.tid - 1] == x)
        || (w.call.Some? && w.call.value.m == x && w.call.value.acceptedAny))
  }

  lemma KnownStep(w: W, s: Step, x: DataMessage)
    requires CallOk(w) && TopicOk(w, TopicOf(x)) && Known(w, x) && Enabled(w, s)
    ensures Known(Next(w, s), x)
  {
    hide Next, Enabled, On, TopicOf;
    CommitEffects(w, s);
    if Commits(w, s) {
      OnAppend(TopicOf(x), w.sent, w.call.value.m);
    }
  }

  /** The newest tid of topic `t` that subscriber `key` can hold. */
  function High(w: W, key: SubscriberKey, t: string): nat {
    if w.call.Some? && TopicOf(w.call.value.m) == t
       && key in w.call.value.report && w.call.value.report[key] == Accepted
    then w.call.value.m.tid else SeqOf(w, t)
  }

  lemma HighStep(w: W, s: Step, key: SubscriberKey, t: string)
    requires CallOk(w) && Enabled(w, s)
    ensures High(w, key, t) <= High(Next(w, s), key, t)
  {
    CallEffects(w, s);
    hide Next, On, MakeCompositeKey;
  }

  /** What a step appends to the frames stream `i` accepted. */
  function Newly(w: W, s: Step, i: nat): seq<Frame>
    requires Enabled(w, s) && i < |w.streams|
  {
    var a := ActionOn(w, s, i);
    if a.Some? && a.value.Push? && EnqueueSection(w.streams[i].sys.r, a.value.frame).status == Accepted
    then [a.value.frame] else []
  }

  lemma AcceptedGrows(w: W, s: Step, i: nat)
    requires Enabled(w, s) && i < |w.streams|
    ensures Next(w, s).streams[i].sys.accepted == w.streams[i].sys.accepted + Newly(w, s, i)
  {
    StreamMoves(w, s, i);
  }

  /** A frame newly accepted for topic `t` carries a tid its subscriber has not had. */
  lemma NewlyIsNewer(w: W, s: Step, i: nat)
    requires CommitOk(w) && TableOk(w) && Enabled(w, s) && i < |w.streams|
    requires Newly(w, s, i) != [] && Newly(w, s, i)[0].Reliable?
    ensures var m := Newly(w, s, i)[0].data;
            && High(w, w.streams[i].key, TopicOf(m)) < m.tid == High(Next(w, s), w.streams[i].key, TopicOf(m))
            && Known(Next(w, s), m)
  {
    hide P.Next;
    var c := w.call.value;
    assert s == PushNext && EntryOk(w, c.todo[0]);
  }

  // ------------------------------------------------------------------- streams

  /** The data frames of `t` in `fs` strictly ascend and are no newer than what `key` can hold. */
  ghost predicate InOrder(w: W, key: SubscriberKey, t: string, fs: seq<Frame>) {
    Ascending(Of(t, fs)) && AllBelow(Of(t, fs), High(w, key, t) + 1)
  }

  lemma AscendingAppend(a: seq<DataMessage>, m: DataMessage, bound: nat)
    requires Ascending(a) && AllBelow(a, bound) && bound <= m.tid
    ensures Ascending(a + [m]) && AllBelow(a + [m], m.tid + 1)
  {
  }

  lemma AllBelowWeaken(a: seq<DataMessage>, b: nat, c: nat)
    requires AllBelow(a, b) && b <= c
    ensures AllBelow(a, c)
  {
  }

  lemma PrefixInOrder(w: W, key: SubscriberKey, t: string, a: seq<Frame>, b: seq<Frame>)
    requires InOrder(w, key, t, a + b)
    ensures InOrder(w, key, t, a)
  {
    OfConcat(t, a, b);
    AscendingPrefix(Of(t, a), Of(t, b), High(w, key, t) + 1);
  }

  lemma AscendingPrefix(a: seq<DataMessage>, b: seq<DataMessage>, bound: nat)
    requires Ascending(a + b) && AllBelow(a + b, bound)
    ensures Ascending(a) && AllBelow(a, bound)
  {
    var c := a + b;
    assert forall i | 0 <= i < |a| :: c[i] == a[i];
    assert forall m <- a :: m in c;
  }

  /** Whatever stream `i` accepts next keeps the order of all its subscriber got before. */
  lemma InOrderGrows(w: W, s: Step, t: string, i: nat, fs: seq<Frame>)
    requires CommitOk(w) && TableOk(w) && Enabled(w, s) && i < |w.streams|
    requires InOrder(w, w.streams[i].key, t, fs)
    ensures InOrder(Next(w, s), w.streams[i].key, t, fs + Newly(w, s, i))
  {
    hide Next, P.Next, TopicOk, TableOk, High, Newly, On, Datas, MakeCompositeKey;
    var w' := Next(w, s);
    var key, now := w.streams[i].key, Newly(w, s, i);
    assert CallOk(w);
    HighStep(w, s, key, t);
    AllBelowWeaken(Of(t, fs), High(w, key, t) + 1, High(w', key, t) + 1);
    if now == [] {
      assert fs + now == fs;
    } else {
      NewlyShape(w, s, i);
      OfAppend(t, fs, now[0]);
      if now[0].Reliable? {
        NewlyIsNewer(w, s, i);
        if TopicOf(now[0].data) == t {
          AscendingAppend(Of(t, fs), now[0].data, High(w, key, t) + 1);
        }
      }
    }
  }

  lemma NewlyShape(w: W, s: Step, i: nat)
    requires Enabled(w, s) && i < |w.streams| && Newly(w, s, i) != []
    ensures Newly(w, s, i) == [Newly(w, s, i)[0]]
  {
  }

  /** Each reactor's accepted frames: per topic in strictly ascending tid order. */
  ghost predicate AcceptedOk(w: W, t: string, i: nat)
    requires i < |w.streams|
  {
    InOrder(w, w.streams[i].key, t, w.streams[i].sys.accepted)
  }

  lemma AcceptedStep(w: W, s: Step, t: string, i: nat)
    requires CommitOk(w) && TableOk(w) && Enabled(w, s) && i < |Next(w, s).streams|
    requires i < |w.streams| ==> AcceptedOk(w, t, i)
    ensures AcceptedOk(Next(w, s), t, i)
  {
    if i < |w.streams| {
      StreamMoves(w, s, i);
      AcceptedGrows(w, s, i);
      InOrderGrows(w, s, t, i, w.streams[i].sys.accepted);
    } else {
      NewStreamEmpty(w, s, i);
    }
  }

  lemma NewStreamEmpty(w: W, s: Step, i: nat)
    requires Enabled(w, s) && |w.streams| <= i < |Next(w, s).streams|
    ensures Next(w, s).streams[i].sys.accepted == [] && s.Dial? && i == |w.streams|
    ensures Next(w, s).streams[i].key == s.key
    ensures forall t :: Of(t, []) == []
  {
  }

  ghost predicate FramesKnown(w: W, i: nat)
    requires i < |w.streams|
  {
    forall f <- w.streams[i].sys.accepted | f.Reliable? :: Known(w, f.data)
  }

  lemma FramesKnownStep(w: W, s: Step, i: nat)
    requires CommitOk(w) && TableOk(w) && Enabled(w, s) && i < |Next(w, s).streams|
    requires i < |w.streams| ==> FramesKnown(w, i)
    ensures FramesKnown(Next(w, s), i)
  {
    hide Next, P.Next, TableOk, Newly, Known, TopicOk;
    if i < |w.streams| {
      AcceptedGrows(w, s, i);
      forall f | f in Next(w, s).streams[i].sys.accepted && f.Reliable? ensures Known(Next(w, s), f.data) {
        if f in w.streams[i].sys.accepted {
          assert CallOk(w) && TopicOk(w, TopicOf(f.data));
          KnownStep(w, s, f.data);
        } else {
          NewlyShape(w, s, i);
          NewlyIsNewer(w, s, i);
        }
      }
    } else {
      NewStreamEmpty(w, s, i);
    }
  }

  // ------------------------------------------------------- the observed stream

  predicate GenOk(w: W) {
    w.gen.Some? ==>
      var g := w.gen.value;
      g < |w.streams| && w.streams[g].key == w.me && w.pos <= |w.streams[g].sys.r.started|
  }

  /** Accepted by the current stream and not read yet. */
  function Pending(w: W): seq<Frame> {
    if w.gen.Some? && w.gen.value < |w.streams| && w.pos <= |w.streams[w.gen.value].sys.accepted|
    then w.streams[w.gen.value].sys.accepted[w.pos..] else []
  }

  lemma StartedGrows(w: W, s: Step, i: nat)
    requires Enabled(w, s) && i < |w.streams|
    ensures |w.streams[i].sys.r.started| <= |Next(w, s).streams[i].sys.r.started|
  {
    hide Next, P.Next;
    StreamMoves(w, s, i);
    var a := ActionOn(w, s, i);
    if a.Some? {
      P.StartedStep(w.streams[i].sys, a.value);
    }
  }

  lemma GenStep(w: W, s: Step)
    requires GenOk(w) && Enabled(w, s)
    ensures GenOk(Next(w, s))
  {
    ClientEffects(w, s);
    if Redials(w, s) {
      FirstAccepts(w, s);
    } else if w.gen.Some? {
      hide Next;
      StreamMoves(w, s, w.gen.value);
      StartedGrows(w, s, w.gen.value);
    }
    CallEffects(w, s);
  }

  /** Everything read so far, continued by what the current stream still holds, is in
      order: re-dials only ever cut off a suffix. */
  ghost predicate Tracked(w: W, t: string) { InOrder(w, w.me, t, w.readLog + Pending(w)) }

  lemma TrackedStep(w: W, s: Step, t: string)
    requires StreamsOk(w) && CommitOk(w) && TableOk(w) && GenOk(w) && Enabled(w, s)
    requires Tracked(w, t)
    ensures Tracked(Next(w, s), t)
  {
    hide Next, P.Next, P.Inv, TopicOk, TableOk, InOrder;
    var w' := Next(w, s);
    ClientEffects(w, s);
    CallEffects(w, s);
    if w.gen.None? && !Redials(w, s) {
      assert w.readLog + [] == w.readLog;
      KeepsOrder(w, s, t, w.readLog);
    } else if Redials(w, s) {
      PrefixInOrder(w, w.me, t, w.readLog, Pending(w));
      KeepsOrder(w, s, t, w.readLog);
      FirstAccepts(w, s);
      assert w.readLog + [] == w.readLog && Pending(w') == [];
    } else {
      var g := w.gen.value;
      StreamMoves(w, s, g);
      AcceptedGrows(w, s, g);
      StartedIsPrefix(w.streams[g].sys);
      InOrderGrows(w, s, t, g, w.readLog + Pending(w));
      var acc, now := w.streams[g].sys.accepted, Newly(w, s, g);
      if s.Read? {
        assert now == [];
        assert w.readLog + Pending(w) + now == w.readLog + Pending(w) == w'.readLog + Pending(w');
      } else {
        assert (acc + now)[w.pos..] == acc[w.pos..] + now;
        assert w.readLog + Pending(w) + now == w'.readLog + Pending(w');
      }
    }
  }

  lemma KeepsOrder(w: W, s: Step, t: string, fs: seq<Frame>)
    requires CommitOk(w) && Enabled(w, s) && InOrder(w, w.me, t, fs)
    ensures InOrder(Next(w, s), w.me, t, fs)
  {
    assert CallOk(w);
    HighStep(w, s, w.me, t);
    AllBelowWeaken(Of(t, fs), High(w, w.me, t) + 1, High(Next(w, s), w.me, t) + 1);
  }

  lemma FirstAccepts(w: W, s: Step)
    requires Enabled(w, s) && s.Dial?
    ensures |Next(w, s).streams| == |w.streams| + 1 && Next(w, s).streams[|w.streams|].sys.accepted == []
    ensures Next(w, s).streams[|w.streams|].key == s.key
  {
  }

  lemma StartedIsPrefix(sys: P.Sys<Frame>)
    requires P.Inv(sys)
    ensures sys.r.started <= sys.accepted
  {
  }
}
