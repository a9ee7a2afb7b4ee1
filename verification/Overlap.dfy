/** Several readers at once: a connection that was replaced keeps reading until it has
    been joined, so frames of older streams are handled among those of newer ones, with
    further dials and cleanups in between. In what order the node then releases frames to
    its readers, under its lock; HandOver.dfy goes on from there to the application. */
module Overlap {
  import opened Keys
  import opened Numbers
  import opened Window
  import opened Receiver

  /** What reaches the node, in the order in which its lock is taken: a frame of stream `g`
      (streams are numbered by registration), the note of a dial, a cleanup. */
  datatype Event = Take(g: nat, m: DataMessage) | Noted(uid: nat) | TimedOut(uids: set<nat>)

  function Apply(o: RxOutcome, e: Event): RxOutcome {
    match e
    case Take(_, m) =>
      var h := Handle(o.state, Reliable(m)); RxOutcome(h.state, o.dispatched + h.dispatched)
    case Noted(uid) => RxOutcome(NoteEstablished(o.state, uid), o.dispatched)
    case TimedOut(uids) => RxOutcome(Prune(o.state, uids), o.dispatched)
  }

  /** The node's receive state and all it released after these events. */
  function Serve(events: seq<Event>): RxOutcome
    decreases |events|
  {
    if events == [] then RxOutcome(RxState(map[], {}), [])
    else Apply(Serve(events[..|events| - 1]), events[|events| - 1])
  }

  /** The frames of one publisher's topic, in order. */
  function For(key: string, ms: seq<DataMessage>): seq<DataMessage>
    decreases |ms|
  {
    if ms == [] then []
    else For(key, ms[..|ms| - 1]) + if KeyOf(ms[|ms| - 1]) == key then [ms[|ms| - 1]] else []
  }

  lemma {:induction false} ForConcat(key: string, a: seq<DataMessage>, d: seq<DataMessage>, own: string)
    requires forall x <- d :: KeyOf(x) == own
    ensures For(key, a + d) == For(key, a) + if own == key then d else []
    decreases |d|
  {
    hide KeyOf;
    if d == [] {
      assert a + d == a;
    } else {
      var init, last := d[..|d| - 1], d[|d| - 1];
      assert (a + d)[..|a + d| - 1] == a + init && d == init + [last];
      assert last in d;
      ForConcat(key, a, init, own);
    }
  }

  /** Windows hold back frames of their own topic only. */
  predicate Filed(s: RxState) {
    forall k <- s.windows :: forall x <- s.windows[k].buffer :: KeyOf(x) == k
  }

  /** A window that has released since it was made or reset is past all of the topic's
      releases, as long as these ascend. */
  predicate InStep(o: RxOutcome, uid: nat, key: string) {
    && ValidRx(o.state) && Filed(o.state) && Ascending(For(key, o.dispatched))
    && (uid !in o.state.freshPublishers && key in o.state.windows && o.state.windows[key].nextExpected > 1 ==>
          AllBelow(For(key, o.dispatched), o.state.windows[key].nextExpected))
  }

  /** The frame is the first that its window releases since it was made or reset. */
  predicate Opens(s: RxState, m: DataMessage) {
    WindowFor(s, m).nextExpected <= 1 && Handle(s, Reliable(m)).dispatched != []
  }

  /** A topic's window opens with a frame newer than all that was released. */
  predicate OpensInOrder(o: RxOutcome, e: Event, key: string) {
    e.Take? && KeyOf(e.m) == key && Opens(o.state, e.m) ==> AllBelow(For(key, o.dispatched), e.m.tid)
  }

  predicate Sensible(e: Event) { e.Take? ==> 1 <= e.m.tid < MAX_U64 }

  /** What one arrival does to a window of its own topic. */
  lemma ArriveOpens(w: RxWindow, m: DataMessage)
    requires Valid(w) && 1 <= m.tid < MAX_U64
    ensures var o := Arrive(w, m);
            && Valid(o.window) && Ascending(o.dispatched) && w.nextExpected <= o.window.nextExpected
            && (o.dispatched == [] ==> o.window.nextExpected == w.nextExpected)
            && (o.dispatched != [] ==>
                  o.window.nextExpected > 1 && o.window.buffer == [] && o.dispatched == [m] + w.buffer)
            && AllFrom(o.dispatched, w.nextExpected) && AllFrom(o.dispatched, if o.dispatched == [] then 0 else m.tid)
            && AllBelow(o.dispatched, o.window.nextExpected)
            && (forall x <- o.window.buffer :: x in w.buffer || x == m)
  {
    ArriveSafe(w, m);
    EmplaceAt(w.buffer, m);
  }

  lemma HandledFiled(s: RxState, m: DataMessage)
    requires ValidRx(s) && Filed(s) && 1 <= m.tid < MAX_U64
    ensures var h := Handle(s, Reliable(m));
            && ValidRx(h.state) && Filed(h.state) && (forall x <- h.dispatched :: KeyOf(x) == KeyOf(m))
            && m.uid !in h.state.freshPublishers && KeyOf(m) in h.state.windows
            && h.state.windows[KeyOf(m)] == Arrive(WindowFor(s, m), m).window
            && h.dispatched == Arrive(WindowFor(s, m), m).dispatched
  {
    hide KeyOf, UidPrefix, Arrive, StartsWith;
    ArriveOpens(WindowFor(s, m), m);
  }

  lemma JoinAscending(a: seq<DataMessage>, d: seq<DataMessage>, mid: nat)
    requires Ascending(a) && Ascending(d) && AllBelow(a, mid) && AllFrom(d, mid)
    ensures Ascending(a + d)
  {
    var c := a + d;
    forall i, j | 0 <= i < j < |c| ensures c[i].tid < c[j].tid {
      if i < |a| <= j {
        assert c[i] in a && c[j] in d;
      }
    }
  }

  /** A frame of the topic, taken in order, keeps the topic in step; one that opens its
      window out of order puts the releases out of order. */
  lemma OwnTaken(o: RxOutcome, e: Event, uid: nat, key: string)
    requires InStep(o, uid, key) && Sensible(e) && e.Take? && KeyOf(e.m) == key && e.m.uid == uid
    ensures OpensInOrder(o, e, key) ==> InStep(Apply(o, e), uid, key)
    ensures !OpensInOrder(o, e, key) ==> !Ascending(For(key, Apply(o, e).dispatched))
  {
    var m := e.m;
    var w, h := WindowFor(o.state, m), Handle(o.state, Reliable(m));
    var log := For(key, o.dispatched);
    HandledFiled(o.state, m);
    ArriveOpens(w, m);
    ForConcat(key, o.dispatched, h.dispatched, key);
    assert w.nextExpected > 1 ==> AllBelow(log, w.nextExpected);
    hide Handle, WindowFor, Arrive, KeyOf, For, ValidRx, Filed;
    if h.dispatched == [] {
      assert log + [] == log;
    } else if OpensInOrder(o, e, key) {
      JoinAscending(log, h.dispatched, if w.nextExpected > 1 then w.nextExpected else m.tid);
      LogBelow(log, h.dispatched, if w.nextExpected > 1 then w.nextExpected else m.tid,
              Apply(o, e).state.windows[key].nextExpected);
    } else {
      OutOfOrder(log, h.dispatched, m.tid);
    }
  }

  lemma LogBelow(log: seq<DataMessage>, d: seq<DataMessage>, mid: nat, next: nat)
    requires AllBelow(log, mid) && d != [] && AllFrom(d, mid) && AllBelow(d, next)
    ensures AllBelow(log + d, next)
  {
    assert d[0] in d;
  }

  lemma OutOfOrder(log: seq<DataMessage>, d: seq<DataMessage>, tid: nat)
    requires !AllBelow(log, tid) && d != [] && d[0].tid == tid
    ensures !Ascending(log + d)
  {
    var x :| x in log && x.tid >= tid;
    var i :| 0 <= i < |log| && log[i] == x;
    assert (log + d)[i] == x && (log + d)[|log|] == d[0];
  }

  /** Frames of other topics, dials and cleanups keep the topic in step. */
  lemma OtherEvent(o: RxOutcome, e: Event, uid: nat, t: string)
    requires var key := WindowKey(uid, t); InStep(o, uid, key) && Sensible(e) && (e.Take? ==> KeyOf(e.m) != key)
    ensures var key := WindowKey(uid, t);
            InStep(Apply(o, e), uid, key) && For(key, Apply(o, e).dispatched) == For(key, o.dispatched)
  {
    var key := WindowKey(uid, t);
    if e.Take? {
      HandledFiled(o.state, e.m);
      ForConcat(key, o.dispatched, Handle(o.state, Reliable(e.m)).dispatched, KeyOf(e.m));
      OtherWindow(o.state, e.m, uid, t);
      assert For(key, o.dispatched) + [] == For(key, o.dispatched);
    }
    hide KeyOf, UidPrefix, For, Arrive, StartsWith;
  }

  /** A frame of another topic leaves the window of `t` as it was, or resets it. */
  lemma OtherWindow(s: RxState, m: DataMessage, uid: nat, t: string)
    requires KeyOf(m) != WindowKey(uid, t)
    ensures var key := WindowKey(uid, t); var s' := Handle(s, Reliable(m)).state;
            && s'.freshPublishers == s.freshPublishers - {m.uid}
            && (key in s'.windows <==> key in s.windows)
            && (key in s.windows ==> s'.windows[key] == UNBASELINED
                                     || (s'.windows[key] == s.windows[key]
                                          && (m.uid == uid ==> uid !in s.freshPublishers)))
  {
    PrefixIdentifiesUid(uid, t, m.uid);
  }

  lemma NoEvents(key: string, uid: nat)
    ensures InStep(Serve([]), uid, key)
  {
  }

  lemma ServeMore(events: seq<Event>, e: Event)
    ensures Serve(events + [e]) == Apply(Serve(events), e)
  {
    assert (events + [e])[..|events|] == events;
  }

  /** Every window of the topic opens in order. */
  ghost predicate AllOpenInOrder(events: seq<Event>, key: string) {
    forall i | 0 <= i < |events| :: OpensInOrder(Serve(events[..i]), events[i], key)
  }

  lemma AllOpenMore(events: seq<Event>, e: Event, key: string)
    ensures AllOpenInOrder(events + [e], key) <==> AllOpenInOrder(events, key) && OpensInOrder(Serve(events), e, key)
  {
    var more := events + [e];
    assert forall i | 0 <= i < |events| :: more[..i] == events[..i] && more[i] == events[i];
    assert more[..|events|] == events && more[|events|] == e;
    hide Serve, OpensInOrder;
    if AllOpenInOrder(more, key) {
      assert OpensInOrder(Serve(more[..|events|]), more[|events|], key);
      forall i | 0 <= i < |events| ensures OpensInOrder(Serve(events[..i]), events[i], key) {
        assert OpensInOrder(Serve(more[..i]), more[i], key);
      }
    }
  }

  lemma Shuffled(a: seq<DataMessage>, d: seq<DataMessage>)
    requires !Ascending(a)
    ensures !Ascending(a + d)
  {
    var i, j :| 0 <= i < j < |a| && a[i].tid >= a[j].tid;
    assert (a + d)[i] == a[i] && (a + d)[j] == a[j];
  }

  lemma LogExtends(o: RxOutcome, e: Event, key: string)
    requires ValidRx(o.state) && Filed(o.state) && Sensible(e)
    ensures ValidRx(Apply(o, e).state) && Filed(Apply(o, e).state)
    ensures For(key, o.dispatched) <= For(key, Apply(o, e).dispatched)
  {
    hide For, KeyOf, UidPrefix, StartsWith;
    if e.Take? {
      HandledFiled(o.state, e.m);
      hide Handle;
      ForConcat(key, o.dispatched, Handle(o.state, Reliable(e.m)).dispatched, KeyOf(e.m));
    }
  }

  /** Main theorem. However the readers, dials and cleanups interleave: a publisher's topic
      is released in order if and only if each of its windows, made or reset in between,
      opens with a frame newer than all released before. */
  lemma {:induction false} OverlapOrderIff(events: seq<Event>, uid: nat, t: string)
    requires forall e <- events :: Sensible(e)
    ensures var key := WindowKey(uid, t); var o := Serve(events);
            && ValidRx(o.state) && Filed(o.state)
            && (Ascending(For(key, o.dispatched)) <==> AllOpenInOrder(events, key))
            && (AllOpenInOrder(events, key) ==> InStep(o, uid, key))
    decreases |events|
  {
    hide OpensInOrder, KeyOf, For, Apply, Sensible;
    var key := WindowKey(uid, t);
    if events == [] {
      NoEvents(key, uid);
    } else {
      var init, e := events[..|events| - 1], events[|events| - 1];
      assert events == init + [e] && e in events;
      OverlapOrderIff(init, uid, t);
      ServeMore(init, e);
      AllOpenMore(init, e, key);
      hide Serve, AllOpenInOrder, InStep, ValidRx, Filed;
      OneMore(Serve(init), e, uid, t, AllOpenInOrder(init, key));
    }
  }

  lemma OneMore(o: RxOutcome, e: Event, uid: nat, t: string, sofar: bool)
    requires var key := WindowKey(uid, t);
             && ValidRx(o.state) && Filed(o.state) && Sensible(e)
             && (Ascending(For(key, o.dispatched)) <==> sofar) && (sofar ==> InStep(o, uid, key))
    ensures var key := WindowKey(uid, t); var o' := Apply(o, e); var now := sofar && OpensInOrder(o, e, key);
            && ValidRx(o'.state) && Filed(o'.state)
            && (Ascending(For(key, o'.dispatched)) <==> now) && (now ==> InStep(o', uid, key))
  {
    var key := WindowKey(uid, t);
    LogExtends(o, e, key);
    if !sofar {
      var a, b := For(key, o.dispatched), For(key, Apply(o, e).dispatched);
      assert b == a + b[|a|..];
      Shuffled(a, b[|a|..]);
    } else if e.Take? && KeyOf(e.m) == key {
      WindowKeyInjective(e.m.uid, MakeCompositeKey(e.m.topicName, e.m.messageType), uid, t);
      OwnTaken(o, e, uid, key);
    } else {
      OtherEvent(o, e, uid, t);
      assert OpensInOrder(o, e, key);
    }
    hide For, Apply, ValidRx, Filed, KeyOf;
  }

  // ------------------------------------------------------------- by stream

  predicate TakesOn(e: Event, key: string) { e.Take? && KeyOf(e.m) == key }

  /** What the publisher sees to: a topic's tids ascend along each stream, and from each
      stream to the next. */
  predicate StreamsOrdered(events: seq<Event>, key: string) {
    forall i, j | 0 <= i < |events| && 0 <= j < |events| && TakesOn(events[i], key) && TakesOn(events[j], key) ::
      events[i].g < events[j].g || (events[i].g == events[j].g && i < j) ==> events[i].m.tid < events[j].m.tid
  }

  predicate Has(events: seq<Event>, x: DataMessage) { exists e <- events :: e.Take? && e.m == x }

  lemma {:induction false} ForMembers(key: string, ms: seq<DataMessage>)
    ensures forall x :: x in For(key, ms) <==> x in ms && KeyOf(x) == key
    decreases |ms|
  {
    hide KeyOf;
    if ms != [] {
      ForMembers(key, ms[..|ms| - 1]);
      assert ms == ms[..|ms| - 1] + [ms[|ms| - 1]];
    }
  }

  /** All that is released or held back was taken. */
  ghost predicate FromTaken(o: RxOutcome, events: seq<Event>) {
    && (forall x <- o.dispatched :: Has(events, x))
    && (forall k <- o.state.windows :: forall x <- o.state.windows[k].buffer :: Has(events, x))
  }

  lemma HandledParts(s: RxState, m: DataMessage)
    requires ValidRx(s) && 1 <= m.tid < MAX_U64
    ensures var h := Handle(s, Reliable(m));
            && (forall x <- h.dispatched :: x == m || (KeyOf(m) in s.windows && x in s.windows[KeyOf(m)].buffer))
            && forall k <- h.state.windows :: forall x <- h.state.windows[k].buffer ::
                 x == m || (k in s.windows && x in s.windows[k].buffer)
  {
    ArriveOpens(WindowFor(s, m), m);
    hide KeyOf, UidPrefix, Arrive, StartsWith;
  }

  lemma HasMore(events: seq<Event>, e: Event, x: DataMessage)
    ensures Has(events + [e], x) <==> Has(events, x) || (e.Take? && e.m == x)
  {
    if Has(events, x) {
      var d :| d in events && d.Take? && d.m == x;
      assert d in events + [e];
    }
    assert e in events + [e];
  }

  lemma {:induction false} DeliveredWasTaken(events: seq<Event>)
    requires forall e <- events :: Sensible(e)
    ensures ValidRx(Serve(events).state) && Filed(Serve(events).state) && FromTaken(Serve(events), events)
    decreases |events|
  {
    if events != [] {
      var init, e := events[..|events| - 1], events[|events| - 1];
      assert events == init + [e] && e in events;
      DeliveredWasTaken(init);
      ServeMore(init, e);
      var o := Serve(init);
      hide Serve, KeyOf, Has;
      LogExtends(o, e, "");
      if e.Take? {
        HandledParts(o.state, e.m);
      }
      hide Handle, ValidRx, Filed, NoteEstablished;
      forall x ensures Has(events, x) <==> Has(init, x) || (e.Take? && e.m == x) {
        HasMore(init, e, x);
      }
      assert FromTaken(o, init);
      PartsTaken(o, e, init, events);
    }
  }

  lemma PartsTaken(o: RxOutcome, e: Event, init: seq<Event>, events: seq<Event>)
    requires FromTaken(o, init) && ValidRx(o.state) && Sensible(e)
    requires forall x :: Has(events, x) <==> Has(init, x) || (e.Take? && e.m == x)
    ensures FromTaken(Apply(o, e), events)
  {
    if e.Take? {
      HandledParts(o.state, e.m);
      hide Handle;
    }
    hide Has, KeyOf, UidPrefix, StartsWith, ValidRx;
  }

  /** Event `i` takes a frame of an older stream that opens the topic's window, after a
      frame of a newer stream was released. */
  ghost predicate Overtaken(events: seq<Event>, key: string, i: nat) {
    && i < |events| && TakesOn(events[i], key) && Opens(Serve(events[..i]).state, events[i].m)
    && exists j :: 0 <= j < i && TakesOn(events[j], key) && events[i].g < events[j].g
                   && events[j].m in Serve(events[..i]).dispatched
  }

  lemma OpensUnlessOvertaken(events: seq<Event>, key: string, i: nat)
    requires (forall e <- events :: Sensible(e)) && StreamsOrdered(events, key) && i < |events|
    ensures OpensInOrder(Serve(events[..i]), events[i], key) <==> !Overtaken(events, key, i)
  {
    hide Serve, For, Opens, KeyOf, ValidRx, Filed, FromTaken, StreamsOrdered;
    var before, e := events[..i], events[i];
    var o := Serve(before);
    assert forall d <- before :: d in events;
    DeliveredWasTaken(before);
    ForMembers(key, o.dispatched);
    if TakesOn(e, key) && Opens(o.state, e.m) {
      NewerDelivered(events, key, i, o);
    }
  }

  lemma NewerDelivered(events: seq<Event>, key: string, i: nat, o: RxOutcome)
    requires StreamsOrdered(events, key) && i < |events| && TakesOn(events[i], key) && FromTaken(o, events[..i])
    requires forall x :: x in For(key, o.dispatched) <==> x in o.dispatched && KeyOf(x) == key
    ensures !AllBelow(For(key, o.dispatched), events[i].m.tid) <==>
            exists j :: 0 <= j < i && TakesOn(events[j], key) && events[i].g < events[j].g
                        && events[j].m in o.dispatched
  {
    hide For, KeyOf;
    if !AllBelow(For(key, o.dispatched), events[i].m.tid) {
      var x :| x in For(key, o.dispatched) && x.tid >= events[i].m.tid;
      assert Has(events[..i], x);
      var e :| e in events[..i] && e.Take? && e.m == x;
      var j :| 0 <= j < i && events[..i][j] == e;
      assert events[j] == e && TakesOn(events[j], key);
    }
  }

  /** In terms of the streams: the topic is released in order if and only if no frame of an
      older stream opens its window after one of a newer stream was released. */
  lemma OverlapByStream(events: seq<Event>, uid: nat, t: string)
    requires forall e <- events :: Sensible(e)
    requires StreamsOrdered(events, WindowKey(uid, t))
    ensures Ascending(For(WindowKey(uid, t), Serve(events).dispatched))
        <==> !exists i :: Overtaken(events, WindowKey(uid, t), i)
  {
    hide Serve, For, OpensInOrder, Overtaken, KeyOf, InStep, StreamsOrdered;
    var key := WindowKey(uid, t);
    OverlapOrderIff(events, uid, t);
    forall i: nat | i < |events|
      ensures OpensInOrder(Serve(events[..i]), events[i], key) <==> !Overtaken(events, key, i)
    {
      OpensUnlessOvertaken(events, key, i);
    }
    OvertakenInside(events, key);
  }

  lemma OvertakenInside(events: seq<Event>, key: string)
    ensures forall i: nat | Overtaken(events, key, i) :: i < |events|
  {
  }

  /** One reader at a time is enough. */
  lemma OneReaderInOrder(events: seq<Event>, uid: nat, t: string)
    requires forall e <- events :: Sensible(e)
    requires StreamsOrdered(events, WindowKey(uid, t))
    requires forall i, j | 0 <= i < j < |events| && events[i].Take? && events[j].Take? :: events[i].g <= events[j].g
    ensures Ascending(For(WindowKey(uid, t), Serve(events).dispatched))
  {
    OverlapByStream(events, uid, t);
    hide Serve, For, KeyOf, Opens, StreamsOrdered;
  }

  /** Two are not, once there has been one more dial: the reader of stream 0 still has `a` in
      hand when `b` of stream 1 is released, and takes the lock right after the next dial. */
  lemma StaleReaderOpens(uid: nat, a: DataMessage, b: DataMessage)
    requires a.uid == b.uid == uid && KeyOf(a) == KeyOf(b) && 1 <= a.tid < b.tid < MAX_U64
    ensures var events := [Noted(uid), Take(1, b), Noted(uid), Take(0, a)];
            StreamsOrdered(events, KeyOf(a)) && Serve(events).dispatched == [b, a]
  {
    var e0: seq<Event> := [];
    var e1, e2, e3 := e0 + [Noted(uid)], [Noted(uid)] + [Take(1, b)], [Noted(uid), Take(1, b)] + [Noted(uid)];
    ServeMore(e0, Noted(uid));
    ServeMore(e1, Take(1, b));
    ServeMore(e2, Noted(uid));
    ServeMore(e3, Take(0, a));
    assert e1 == [Noted(uid)] && e2 == [Noted(uid), Take(1, b)] && e3 == [Noted(uid), Take(1, b), Noted(uid)];
    assert e3 + [Take(0, a)] == [Noted(uid), Take(1, b), Noted(uid), Take(0, a)];
    assert Serve(e1) == RxOutcome(NoteEstablished(RxState(map[], {}), uid), []);
    FirstAfterDial(RxState(map[], {}), b);
    FirstAfterDial(Serve(e2).state, a);
    hide Handle, NoteEstablished, KeyOf;
    assert [b] + [a] == [b, a] && [] + [b] == [b];
  }

  /** A cleanup does as well, where the stale frame is the topic's first. */
  lemma StaleReaderAfterCleanup(uid: nat, a: DataMessage, b: DataMessage)
    requires a.uid == b.uid == uid && KeyOf(a) == KeyOf(b) && 1 == a.tid < b.tid < MAX_U64
    ensures var events := [Noted(uid), Take(1, b), TimedOut({uid}), Take(0, a)];
            StreamsOrdered(events, KeyOf(a)) && Serve(events).dispatched == [b, a]
  {
    var e0: seq<Event> := [];
    var e1, e2, e3 := e0 + [Noted(uid)], [Noted(uid)] + [Take(1, b)], [Noted(uid), Take(1, b)] + [TimedOut({uid})];
    ServeMore(e0, Noted(uid));
    ServeMore(e1, Take(1, b));
    ServeMore(e2, TimedOut({uid}));
    ServeMore(e3, Take(0, a));
    assert e1 == [Noted(uid)] && e2 == [Noted(uid), Take(1, b)] && e3 == [Noted(uid), Take(1, b), TimedOut({uid})];
    assert e3 + [Take(0, a)] == [Noted(uid), Take(1, b), TimedOut({uid}), Take(0, a)];
    assert Serve(e1) == RxOutcome(NoteEstablished(RxState(map[], {}), uid), []);
    FirstAfterDial(RxState(map[], {}), b);
    FirstAfterCleanup(Serve(e2).state, a);
    hide Handle, NoteEstablished, Prune, KeyOf;
    assert [b] + [a] == [b, a] && [] + [b] == [b];
  }

  lemma FirstAfterCleanup(s: RxState, m: DataMessage)
    requires m.tid == 1 && m.uid !in s.freshPublishers
    ensures Handle(Prune(s, {m.uid}), Reliable(m)).dispatched == [m]
  {
    PrefixIdentifiesUid(m.uid, MakeCompositeKey(m.topicName, m.messageType), m.uid);
  }

  lemma FirstAfterDial(s: RxState, m: DataMessage)
    requires m.tid < MAX_U64
    ensures var h := Handle(NoteEstablished(s, m.uid), Reliable(m));
            h.dispatched == [m] && m.uid !in h.state.freshPublishers
  {
    FirstSpendsMarker(s, m);
  }

  // -------------------------------------------------------------- at most once

  predicate Unrepeated(o: RxOutcome, key: string) {
    var log := For(key, o.dispatched);
    && (forall i, j | 0 <= i < j < |log| :: log[i].tid != log[j].tid)
    && (key in o.state.windows ==> forall x <- o.state.windows[key].buffer, y <- log :: x.tid != y.tid)
  }

  /** Whatever the order, no tid is released twice. */
  lemma {:induction false} OnceInAnyOrder(events: seq<Event>, uid: nat, t: string)
    requires forall e <- events :: Sensible(e)
    requires StreamsOrdered(events, WindowKey(uid, t))
    ensures Unrepeated(Serve(events), WindowKey(uid, t))
    decreases |events|
  {
    var key := WindowKey(uid, t);
    if events != [] {
      var init, e := events[..|events| - 1], events[|events| - 1];
      assert events == init + [e] && e in events && forall d <- init :: d in events;
      OnceInAnyOrder(init, uid, t);
      ServeMore(init, e);
      DeliveredWasTaken(init);
      var o := Serve(init);
      hide Serve, Unrepeated, Has, KeyOf, ValidRx, Filed;
      if TakesOn(e, key) {
        forall x | x in For(key, o.dispatched) ensures x.tid != e.m.tid {
          ForMembers(key, o.dispatched);
          TakenBefore(events, init, e, key, x);
        }
        OwnOnce(o, e, key);
      } else {
        OtherOnce(o, e, uid, t);
      }
    }
  }

  lemma TakenBefore(events: seq<Event>, init: seq<Event>, e: Event, key: string, x: DataMessage)
    requires events == init + [e] && StreamsOrdered(events, key) && TakesOn(e, key) && Has(init, x) && KeyOf(x) == key
    ensures x.tid != e.m.tid
  {
    hide KeyOf;
    var d :| d in init && d.Take? && d.m == x;
    var j :| 0 <= j < |init| && init[j] == d;
    assert events[j] == d && events[|init|] == e && TakesOn(d, key);
  }

  predicate DistinctFrom(log: seq<DataMessage>, buffer: seq<DataMessage>) {
    && (forall i, j | 0 <= i < j < |log| :: log[i].tid != log[j].tid)
    && (forall x <- buffer, y <- log :: x.tid != y.tid)
  }

  lemma OwnOnce(o: RxOutcome, e: Event, key: string)
    requires Unrepeated(o, key) && ValidRx(o.state) && Filed(o.state) && Sensible(e) && TakesOn(e, key)
    requires forall x <- For(key, o.dispatched) :: x.tid != e.m.tid
    ensures Unrepeated(Apply(o, e), key)
  {
    var m := e.m;
    var w, log := WindowFor(o.state, m), For(key, o.dispatched);
    HandledFiled(o.state, m);
    ArrivesOnce(w, m, log);
    ForConcat(key, o.dispatched, Handle(o.state, Reliable(m)).dispatched, key);
    hide Handle, Arrive, KeyOf, For, ValidRx, Filed;
  }

  lemma ArrivesOnce(w: RxWindow, m: DataMessage, log: seq<DataMessage>)
    requires Valid(w) && 1 <= m.tid < MAX_U64 && DistinctFrom(log, w.buffer) && forall x <- log :: x.tid != m.tid
    ensures var h := Arrive(w, m); DistinctFrom(log + h.dispatched, h.window.buffer)
  {
    var h := Arrive(w, m);
    ArriveOpens(w, m);
    hide Arrive, Valid;
    if h.dispatched == [] {
      assert log + [] == log;
    } else {
      JoinDistinct(log, h.dispatched);
    }
  }

  lemma JoinDistinct(a: seq<DataMessage>, d: seq<DataMessage>)
    requires (forall i, j | 0 <= i < j < |a| :: a[i].tid != a[j].tid) && Ascending(d)
    requires forall x <- a, y <- d :: x.tid != y.tid
    ensures forall i, j | 0 <= i < j < |a + d| :: (a + d)[i].tid != (a + d)[j].tid
  {
    var c := a + d;
    forall i, j | 0 <= i < j < |c| ensures c[i].tid != c[j].tid {
      if i < |a| <= j {
        assert c[i] in a && c[j] in d;
      }
    }
  }

  lemma OtherOnce(o: RxOutcome, e: Event, uid: nat, t: string)
    requires var key := WindowKey(uid, t); Unrepeated(o, key) && !TakesOn(e, key)
    requires ValidRx(o.state) && Filed(o.state) && Sensible(e)
    ensures Unrepeated(Apply(o, e), WindowKey(uid, t))
  {
    var key := WindowKey(uid, t);
    if e.Take? {
      HandledFiled(o.state, e.m);
      ForConcat(key, o.dispatched, Handle(o.state, Reliable(e.m)).dispatched, KeyOf(e.m));
      OtherWindow(o.state, e.m, uid, t);
      assert For(key, o.dispatched) + [] == For(key, o.dispatched);
    }
    hide KeyOf, UidPrefix, For, Arrive, StartsWith, ValidRx, Filed;
  }
}
