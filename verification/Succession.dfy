/** One stream after another: over every run the streams that a subscriber dials take a
    topic's frames one after the other, so that tids ascend from each to the next. */
module Succession {
  import opened Keys
  import opened Window
  import opened Receiver
  import opened Reactor
  import opened World
  import opened Ordering
  import opened EndToEnd
  import L = Lossless
  import O = Overlap
  import P = ReactorProtocol

  /** The frames of `t` that stream `i` accepted. */
  function Taken(w: W, t: string, i: nat): seq<DataMessage>
    requires i < |w.streams|
  {
    Of(t, w.streams[i].sys.accepted)
  }

  predicate Precedes(a: seq<DataMessage>, b: seq<DataMessage>) { forall x <- a, y <- b :: x.tid < y.tid }

  /** All of `t` that stream `j` took is newer than what `i` took, and `i` takes no more once
      `j` has begun. */
  predicate Yields(w: W, t: string, i: nat, j: nat)
    requires i < |w.streams| && j < |w.streams|
  {
    Precedes(Taken(w, t, i), Taken(w, t, j)) && (Taken(w, t, j) == [] || !IsLive(w.streams[i].sys.r))
  }

  /** A stream takes frames only once it is registered. */
  predicate Registered(w: W, t: string, i: nat)
    requires i < |w.streams|
  {
    w.streams[i].registered || Taken(w, t, i) == []
  }

  ghost predicate Successive(w: W, t: string) {
    && (forall i | 0 <= i < |w.streams| :: Registered(w, t, i))
    && forall i, j | 0 <= i < |w.streams| && 0 <= j < |w.streams| && i != j && w.streams[i].key == w.streams[j].key ::
         Yields(w, t, i, j) || Yields(w, t, j, i)
  }

  /** What a step adds to the frames of `t` that stream `i` took. */
  function Gains(w: W, s: Step, t: string, i: nat): seq<DataMessage>
    requires Enabled(w, s) && i < |w.streams|
  {
    Of(t, Newly(w, s, i))
  }

  lemma TakenGrows(w: W, s: Step, t: string, i: nat)
    requires Enabled(w, s) && i < |w.streams|
    ensures i < |Next(w, s).streams| && Next(w, s).streams[i].key == w.streams[i].key
    ensures Taken(Next(w, s), t, i) == Taken(w, t, i) + Gains(w, s, t, i)
    ensures w.streams[i].registered ==> Next(w, s).streams[i].registered
    ensures !IsLive(w.streams[i].sys.r) ==> !IsLive(Next(w, s).streams[i].sys.r)
  {
    StreamMoves(w, s, i);
    AcceptedGrows(w, s, i);
    LivenessFades(w, s, i);
    OfConcat(t, w.streams[i].sys.accepted, Newly(w, s, i));
    hide Next, Enabled, Newly, Of;
  }

  /** Only the stream in the table gains a data frame, and one newer than any stream of its
      key has. */
  lemma WhoGains(w: W, s: Step, t: string, i: nat)
    requires Inv(w) && Enabled(w, s) && i < |w.streams| && Gains(w, s, t, i) != []
    ensures var key := w.streams[i].key;
            && key in w.table && w.table[key] == i && w.streams[i].registered && IsLive(w.streams[i].sys.r)
    ensures var m := Gains(w, s, t, i)[0];
            && Gains(w, s, t, i) == [m]
            && forall j | 0 <= j < |w.streams| && w.streams[j].key == w.streams[i].key ::
                 AllBelow(Taken(w, t, j), m.tid)
  {
    L.OneFrame(t, Frame.Presence);
    NewlyShape(w, s, i);
    L.OneFrame(t, Newly(w, s, i)[0]);
    InvParts(w);
    hide Inv, Of, CommitOk;
    NewlyFromTable(w, s, i);
    hide TableOk, Newly, Next;
    NewlyNewer(w, s, i);
    forall j | 0 <= j < |w.streams| && w.streams[j].key == w.streams[i].key
      ensures AllBelow(Taken(w, t, j), Gains(w, s, t, i)[0].tid)
    {
      TakenBelow(w, t, j);
      AllBelowWeaken(Taken(w, t, j), High(w, w.streams[j].key, t) + 1, Gains(w, s, t, i)[0].tid);
    }
  }

  lemma InvParts(w: W)
    requires Inv(w)
    ensures CommitOk(w) && TableOk(w)
    ensures forall t: string, i | 0 <= i < |w.streams| :: AcceptedOk(w, t, i)
  {
    hide P.Inv, TableOk, CommitOk, AcceptedOk;
    forall t: string, i | 0 <= i < |w.streams| ensures AcceptedOk(w, t, i) {
      assert TopicInv(w, t);
    }
  }

  lemma NewlyFromTable(w: W, s: Step, i: nat)
    requires TableOk(w) && Enabled(w, s) && i < |w.streams| && Newly(w, s, i) != [] && Newly(w, s, i)[0].Reliable?
    ensures var key := w.streams[i].key;
            && key in w.table && w.table[key] == i && w.streams[i].registered && IsLive(w.streams[i].sys.r)
  {
    assert s.PushNext? && EntryOk(w, w.call.value.todo[0]);
  }

  lemma NewlyNewer(w: W, s: Step, i: nat)
    requires CommitOk(w) && TableOk(w) && Enabled(w, s) && i < |w.streams|
    requires Newly(w, s, i) != [] && Newly(w, s, i)[0].Reliable?
    ensures var m := Newly(w, s, i)[0].data; High(w, w.streams[i].key, TopicOf(m)) < m.tid
  {
    hide Next, Newly, CommitOk, TableOk;
    NewlyIsNewer(w, s, i);
  }

  lemma TakenBelow(w: W, t: string, j: nat)
    requires j < |w.streams| && AcceptedOk(w, t, j)
    ensures Ascending(Taken(w, t, j)) && AllBelow(Taken(w, t, j), High(w, w.streams[j].key, t) + 1)
  {
  }

  lemma NobodyElseGains(w: W, s: Step, t: string, i: nat, j: nat)
    requires Inv(w) && Enabled(w, s) && i < |w.streams| && j < |w.streams| && i != j
    requires w.streams[i].key == w.streams[j].key && Gains(w, s, t, j) != []
    ensures Gains(w, s, t, i) == []
    ensures !w.streams[i].registered || !IsLive(w.streams[i].sys.r)
  {
    WhoGains(w, s, t, j);
    InvParts(w);
    assert StreamOk(w, i);
    hide Inv, Gains, CommitOk, TableOk;
    if Gains(w, s, t, i) != [] {
      WhoGains(w, s, t, i);
    }
  }

  /** Frames `a` of a stream that takes no more, and `b` of one that just took `m`. */
  lemma OneMoreTaken(a: seq<DataMessage>, b: seq<DataMessage>, m: DataMessage, takes: bool)
    requires AllBelow(a, m.tid) && (a == [] || !takes)
    requires Precedes(a, b) || a == []
    ensures (Precedes(a, b + [m]) && !takes) || a == []
  {
  }

  /** When `j` takes a frame, `i` of the same key yields to it, or has yet to begin. */
  lemma GainYields(w: W, s: Step, t: string, i: nat, j: nat)
    requires Inv(w) && Enabled(w, s) && i < |w.streams| && j < |w.streams| && i != j
    requires w.streams[i].key == w.streams[j].key && Gains(w, s, t, j) != [] && Registered(w, t, i)
    requires Yields(w, t, i, j) || Yields(w, t, j, i)
    ensures i < |Next(w, s).streams| && j < |Next(w, s).streams|
    ensures Yields(Next(w, s), t, i, j) || Yields(Next(w, s), t, j, i)
  {
    hide Inv, Next, Enabled, Gains, Taken, IsLive, AllBelow, Precedes;
    TakenGrows(w, s, t, i);
    TakenGrows(w, s, t, j);
    WhoGains(w, s, t, j);
    NobodyElseGains(w, s, t, i, j);
    assert Taken(w, t, i) + [] == Taken(w, t, i);
    OneMoreTaken(Taken(w, t, i), Taken(w, t, j), Gains(w, s, t, j)[0], IsLive(w.streams[i].sys.r));
    NothingPrecedes(Taken(Next(w, s), t, j));
  }

  lemma NothingPrecedes(b: seq<DataMessage>)
    ensures Precedes(b, [])
  {
  }

  lemma YieldsStep(w: W, s: Step, t: string, i: nat, j: nat)
    requires Inv(w) && Enabled(w, s) && i < |w.streams| && j < |w.streams| && i != j
    requires w.streams[i].key == w.streams[j].key && Registered(w, t, i) && Registered(w, t, j)
    requires Yields(w, t, i, j) || Yields(w, t, j, i)
    ensures i < |Next(w, s).streams| && j < |Next(w, s).streams|
    ensures Yields(Next(w, s), t, i, j) || Yields(Next(w, s), t, j, i)
  {
    hide Inv, Next, Enabled, Gains, Taken, IsLive, Registered;
    if Gains(w, s, t, j) != [] {
      GainYields(w, s, t, i, j);
    } else if Gains(w, s, t, i) != [] {
      GainYields(w, s, t, j, i);
    } else {
      TakenGrows(w, s, t, i);
      TakenGrows(w, s, t, j);
      assert Taken(w, t, i) + [] == Taken(w, t, i) && Taken(w, t, j) + [] == Taken(w, t, j);
    }
  }

  lemma RegisteredStep(w: W, s: Step, t: string, i: nat)
    requires Inv(w) && Enabled(w, s) && i < |w.streams| && Registered(w, t, i)
    ensures i < |Next(w, s).streams| && Registered(Next(w, s), t, i)
  {
    hide Inv, Next, Enabled, Gains, Taken;
    TakenGrows(w, s, t, i);
    if Gains(w, s, t, i) != [] {
      WhoGains(w, s, t, i);
    } else {
      assert Taken(w, t, i) + [] == Taken(w, t, i);
    }
  }

  lemma NewIsSilent(w: W, s: Step, t: string, i: nat)
    requires Enabled(w, s) && |w.streams| <= i < |Next(w, s).streams|
    ensures i == |w.streams| && Taken(Next(w, s), t, i) == []
  {
    NewStreamEmpty(w, s, i);
    hide Next, Enabled, Of;
  }

  lemma SuccessiveStep(w: W, s: Step, t: string)
    requires Inv(w) && Enabled(w, s) && Successive(w, t)
    ensures Successive(Next(w, s), t)
  {
    hide Inv, Next, Enabled, Taken, IsLive;
    var w' := Next(w, s);
    forall i | 0 <= i < |w'.streams| ensures Registered(w', t, i) {
      if i < |w.streams| {
        RegisteredStep(w, s, t, i);
      } else {
        NewIsSilent(w, s, t, i);
      }
    }
    forall i, j | 0 <= i < |w'.streams| && 0 <= j < |w'.streams| && i != j && w'.streams[i].key == w'.streams[j].key
      ensures Yields(w', t, i, j) || Yields(w', t, j, i)
    {
      if i >= |w.streams| {
        NewIsSilent(w, s, t, i);
      } else if j >= |w.streams| {
        NewIsSilent(w, s, t, j);
      } else {
        TakenGrows(w, s, t, i);
        TakenGrows(w, s, t, j);
        assert Registered(w, t, i) && Registered(w, t, j);
        YieldsStep(w, s, t, i, j);
      }
    }
  }

  lemma {:induction false} SuccessiveRun(w: W, steps: seq<Step>, t: string)
    requires Inv(w) && Possible(w, steps) && Successive(w, t)
    ensures Successive(After(w, steps), t)
    decreases |steps|
  {
    hide Next, Enabled, Inv, Successive;
    if steps != [] {
      SuccessiveStep(w, steps[0], t);
      InvStep(w, steps[0]);
      SuccessiveRun(Next(w, steps[0]), steps[1..], t);
    }
  }

  /** Over every run: of two streams of one subscriber, one took all its frames of a topic
      before the other, with smaller tids. */
  lemma OneAfterAnother(uid: nat, me: SubscriberKey, limits: Limits, steps: seq<Step>, t: string, i: nat, j: nat)
    requires Coherent(limits) && Possible(Start(uid, me, limits), steps)
    requires var w := After(Start(uid, me, limits), steps);
             i < |w.streams| && j < |w.streams| && i != j && w.streams[i].key == w.streams[j].key
    ensures var w := After(Start(uid, me, limits), steps);
            Precedes(Taken(w, t, i), Taken(w, t, j)) || Precedes(Taken(w, t, j), Taken(w, t, i))
  {
    hide After, Inv, Possible, Taken, Precedes;
    StartInv(uid, me, limits);
    assert Successive(Start(uid, me, limits), t);
    SuccessiveRun(Start(uid, me, limits), steps, t);
    assert var w := After(Start(uid, me, limits), steps); Yields(w, t, i, j) || Yields(w, t, j, i);
  }

  // ---------------------------------------------------------- what readers take

  /** A stream's rank on a topic: the tid of its first frame. */
  function Rank(w: W, t: string, i: nat): nat
    requires i < |w.streams|
  {
    if Taken(w, t, i) == [] then 0 else Taken(w, t, i)[0].tid
  }

  /** Frames taken off the streams of `me`, in any interleaving: event `k` is frame `at[k]` of
      the topic on stream `from[k]`, and each stream is read in order. */
  predicate OffStreams(w: W, t: string, events: seq<O.Event>, from: seq<nat>, at: seq<nat>) {
    && |from| == |at| == |events|
    && (forall k | 0 <= k < |events| && O.TakesOn(events[k], WindowKey(w.uid, t)) ::
          && from[k] < |w.streams| && w.streams[from[k]].key == w.me && at[k] < |Taken(w, t, from[k])|
          && events[k].m == Taken(w, t, from[k])[at[k]] && events[k].g == Rank(w, t, from[k]))
    && (forall k, l | 0 <= k < l < |events| && from[k] == from[l]
          && O.TakesOn(events[k], WindowKey(w.uid, t)) && O.TakesOn(events[l], WindowKey(w.uid, t)) :: at[k] < at[l])
  }

  /** Two frames off the streams carry tids in the order of rank and position. */
  lemma PairOrdered(w: W, t: string, events: seq<O.Event>, from: seq<nat>, at: seq<nat>, k: nat, l: nat)
    requires Inv(w) && Successive(w, t) && OffStreams(w, t, events, from, at)
    requires k < |events| && l < |events|
    requires O.TakesOn(events[k], WindowKey(w.uid, t)) && O.TakesOn(events[l], WindowKey(w.uid, t))
    requires events[k].g < events[l].g || (events[k].g == events[l].g && k < l)
    ensures events[k].m.tid < events[l].m.tid
  {
    InvParts(w);
    var a, b := Taken(w, t, from[k]), Taken(w, t, from[l]);
    TakenBelow(w, t, from[k]);
    hide Inv, Taken, CommitOk, TableOk, AcceptedOk;
    if from[k] != from[l] {
      assert Yields(w, t, from[k], from[l]) || Yields(w, t, from[l], from[k]);
      assert a[0] in a && b[0] in b && a[at[k]] in a && b[at[l]] in b;
    }
  }

  /** So what several readers take off a subscriber's streams is ordered as Overlap.dfy asks,
      in every run. */
  lemma ReadersOrdered(uid: nat, me: SubscriberKey, limits: Limits, steps: seq<Step>, t: string,
                       events: seq<O.Event>, from: seq<nat>, at: seq<nat>)
    requires Coherent(limits) && Possible(Start(uid, me, limits), steps)
    requires OffStreams(After(Start(uid, me, limits), steps), t, events, from, at)
    ensures O.StreamsOrdered(events, WindowKey(uid, t))
  {
    hide After, Inv, Possible, Successive, OffStreams, KeyOf;
    StartInv(uid, me, limits);
    StartSuccessive(uid, me, limits, t);
    SuccessiveRun(Start(uid, me, limits), steps, t);
    InvRun(Start(uid, me, limits), steps);
    UidStays(Start(uid, me, limits), steps);
    var w := After(Start(uid, me, limits), steps);
    forall k, l | 0 <= k < |events| && 0 <= l < |events|
                  && O.TakesOn(events[k], WindowKey(uid, t)) && O.TakesOn(events[l], WindowKey(uid, t))
                  && (events[k].g < events[l].g || (events[k].g == events[l].g && k < l))
      ensures events[k].m.tid < events[l].m.tid
    {
      PairOrdered(w, t, events, from, at, k, l);
    }
  }

  lemma StartSuccessive(uid: nat, me: SubscriberKey, limits: Limits, t: string)
    ensures Successive(Start(uid, me, limits), t)
  {
  }

  lemma {:induction false} UidStays(w: W, steps: seq<Step>)
    requires Possible(w, steps)
    ensures After(w, steps).uid == w.uid
    decreases |steps|
  {
    hide Next, Enabled;
    if steps != [] {
      CommitEffects(w, steps[0]);
      UidStays(Next(w, steps[0]), steps[1..]);
    }
  }
}
