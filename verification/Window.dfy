/** The reliable receiver's reorder/dedup window for one (publisher, topic). */
module Window {

  import opened Numbers

  const RELIABLE_WINDOW_SIZE: nat := 256

  datatype DataMessage = DataMessage(uid: nat, tid: nat, topicName: string, messageType: string, payload: seq<byte>)

  /** `nextExpected == 0` is the unbaselined state; `buffer` is the ordered map
      from tid to frame, listed by ascending tid. */
  datatype RxWindow = RxWindow(nextExpected: nat, buffer: seq<DataMessage>)

  datatype Outcome = Outcome(window: RxWindow, dispatched: seq<DataMessage>)

  /** `++n`, except that the largest 64-bit value stays put. */
  function SatInc(n: nat): nat { if n < MAX_U64 then n + 1 else n }

  function Max(a: nat, b: nat): nat { if a < b then b else a }

  /** `std::map::emplace`: keeps the tid order and an entry already present. */
  function Emplace(buffer: seq<DataMessage>, m: DataMessage): seq<DataMessage> {
    if buffer == [] || m.tid < buffer[0].tid then [m] + buffer
    else if m.tid == buffer[0].tid then buffer
    else [buffer[0]] + Emplace(buffer[1..], m)
  }

  /** Where `nextExpected` ends up after flushing `buffer`. */
  function FlushNext(next: nat, buffer: seq<DataMessage>): nat
    decreases |buffer|
  {
    if buffer == [] then next else FlushNext(SatInc(Max(next, buffer[0].tid)), buffer[1..])
  }

  /** Deliver `m` as tid `w.nextExpected`, then flush the whole buffer. */
  function Deliver(w: RxWindow, m: DataMessage): Outcome {
    Outcome(RxWindow(FlushNext(SatInc(w.nextExpected), w.buffer), []), [m] + w.buffer)
  }

  /** One frame reaching the window. */
  function Arrive(w: RxWindow, m: DataMessage): Outcome {
    if w.nextExpected == 0 then Deliver(w.(nextExpected := m.tid), m)
    else if m.tid == w.nextExpected then Deliver(w, m)
    else if m.tid > w.nextExpected then
      if m.tid - w.nextExpected < RELIABLE_WINDOW_SIZE && |w.buffer| < RELIABLE_WINDOW_SIZE then
        Outcome(w.(buffer := Emplace(w.buffer, m)), [])
      else if m.tid - w.nextExpected >= RELIABLE_WINDOW_SIZE && w.buffer == [] then
        Deliver(w.(nextExpected := m.tid), m)
      else Outcome(w, [])
    else Outcome(w, [])
  }

  /** The frames `ms` reaching the window one after another. */
  function Run(w: RxWindow, ms: seq<DataMessage>): Outcome
    decreases |ms|
  {
    if ms == [] then Outcome(w, [])
    else
      var first := Arrive(w, ms[0]);
      var rest := Run(first.window, ms[1..]);
      Outcome(rest.window, first.dispatched + rest.dispatched)
  }

  // ---------------------------------------------------------------- invariant

  predicate Ascending(ms: seq<DataMessage>) {
    forall i, j | 0 <= i < j < |ms| :: ms[i].tid < ms[j].tid
  }

  predicate AllBelow(ms: seq<DataMessage>, bound: nat) { forall m <- ms :: m.tid < bound }

  predicate AllFrom(ms: seq<DataMessage>, bound: nat) { forall m <- ms :: bound <= m.tid }

  predicate Valid(w: RxWindow) {
    && w.nextExpected <= MAX_U64
    && Ascending(w.buffer)
    && AllBelow(w.buffer, MAX_U64)
    && (w.nextExpected == 0 ==> w.buffer == [])
    && forall m <- w.buffer :: w.nextExpected < m.tid < w.nextExpected + RELIABLE_WINDOW_SIZE
  }

  lemma {:induction false} EmplaceAt(buffer: seq<DataMessage>, m: DataMessage)
    requires Ascending(buffer)
    ensures Ascending(Emplace(buffer, m))
    ensures forall x :: x in Emplace(buffer, m) <==> x in buffer || (x == m && forall y <- buffer :: y.tid != m.tid)
  {
    if buffer != [] && m.tid > buffer[0].tid {
      var rest := buffer[1..];
      EmplaceAt(rest, m);
      assert buffer == [buffer[0]] + rest;
      var e := Emplace(rest, m);
      forall i, j | 0 <= i < j < |e| + 1 ensures ([buffer[0]] + e)[i].tid < ([buffer[0]] + e)[j].tid {
        assert e[j - 1] in e;
      }
    }
  }

  lemma {:induction false} FlushNextPast(next: nat, buffer: seq<DataMessage>)
    requires next <= MAX_U64
    requires Ascending(buffer) && AllBelow(buffer, MAX_U64) && AllFrom(buffer, next)
    ensures next <= FlushNext(next, buffer) <= MAX_U64
    ensures AllBelow(buffer, FlushNext(next, buffer))
    ensures buffer != [] ==> FlushNext(next, buffer) == buffer[|buffer| - 1].tid + 1
    decreases |buffer|
  {
    if buffer != [] {
      FlushNextPast(SatInc(Max(next, buffer[0].tid)), buffer[1..]);
    }
  }

  lemma DeliverSafe(w: RxWindow, m: DataMessage)
    requires w.nextExpected == m.tid < MAX_U64 && Ascending(w.buffer) && AllBelow(w.buffer, MAX_U64)
    requires AllFrom(w.buffer, m.tid + 1)
    ensures var o := Deliver(w, m);
            && Valid(o.window) && m.tid < o.window.nextExpected && Ascending(o.dispatched)
            && AllFrom(o.dispatched, m.tid) && AllBelow(o.dispatched, o.window.nextExpected)
  {
    FlushNextPast(SatInc(m.tid), w.buffer);
    hide FlushNext;
  }

  /** What one arrival keeps and guarantees. */
  lemma ArriveSafe(w: RxWindow, m: DataMessage)
    requires Valid(w) && m.tid < MAX_U64
    ensures Valid(Arrive(w, m).window)
    ensures w.nextExpected <= Arrive(w, m).window.nextExpected
    ensures var o := Arrive(w, m); Ascending(o.dispatched) && AllFrom(o.dispatched, w.nextExpected)
                                   && AllBelow(o.dispatched, o.window.nextExpected)
  {
    hide Deliver, Emplace;
    if w.nextExpected == 0 || m.tid == w.nextExpected || (m.tid > w.nextExpected && w.buffer == []) {
      DeliverSafe(w.(nextExpected := m.tid), m);
    }
    EmplaceAt(w.buffer, m);
  }

  /** The buffer never holds more than 255 frames, so the `size() < 256` test of
      the in-window branch never decides anything. */
  lemma BufferBounded(w: RxWindow)
    requires Valid(w)
    ensures |w.buffer| < RELIABLE_WINDOW_SIZE
  {
    AscendingSpread(w.buffer, |w.buffer| - 1);
    if w.buffer != [] {
      assert w.buffer[0] in w.buffer && w.buffer[|w.buffer| - 1] in w.buffer;
    }
  }

  /** What one arrival does: a frame is released, and everything held back behind it, if it is
      the first one, the next one, or 256 or more past an empty window; short of that it is
      held back if it is ahead and its tid is not held back already, and discarded if not. */
  lemma ArriveExact(w: RxWindow, m: DataMessage)
    requires Valid(w)
    ensures var next, o := w.nextExpected, Arrive(w, m);
            && (o.dispatched != [] <==> next == 0 || m.tid == next || (w.buffer == [] && m.tid >= next + 256))
            && (o.dispatched != [] ==> o.dispatched == [m] + w.buffer && o.window.buffer == [])
            && (o.dispatched == [] ==>
                  && o.window.nextExpected == next
                  && forall x :: x in o.window.buffer <==>
                       x in w.buffer || (x == m && next < m.tid < next + 256 && forall y <- w.buffer :: y.tid != m.tid))
  {
    EmplaceAt(w.buffer, m);
    BufferBounded(w);
    hide Ascending, AllBelow, Emplace, FlushNext;
  }

  lemma {:induction false} AscendingSpread(ms: seq<DataMessage>, i: int)
    requires Ascending(ms) && i < |ms|
    ensures 0 <= i ==> ms[0].tid + i <= ms[i].tid
  {
    if i > 0 {
      AscendingSpread(ms, i - 1);
    }
  }

  /** Between two resets, whatever arrives in whatever order: no tid is delivered
      twice, delivery ascends, and `nextExpected` stays past all of it. */
  lemma {:induction false} WindowSafety(w: RxWindow, ms: seq<DataMessage>)
    requires Valid(w) && AllBelow(ms, MAX_U64)
    ensures var o := Run(w, ms);
            && Valid(o.window) && w.nextExpected <= o.window.nextExpected
            && Ascending(o.dispatched)
            && AllFrom(o.dispatched, w.nextExpected) && AllBelow(o.dispatched, o.window.nextExpected)
            && |o.window.buffer| < RELIABLE_WINDOW_SIZE
    decreases |ms|
  {
    if ms == [] {
      BufferBounded(w);
    } else {
      var first := Arrive(w, ms[0]);
      ArriveSafe(w, ms[0]);
      WindowSafety(first.window, ms[1..]);
      var rest := Run(first.window, ms[1..]);
      var all := first.dispatched + rest.dispatched;
      forall i, j | 0 <= i < j < |all| ensures all[i].tid < all[j].tid {
        if i < |first.dispatched| <= j {
          assert all[i] in first.dispatched && all[j] in rest.dispatched;
        }
      }
    }
  }

  /** Only frames that arrived, or were buffered before, are ever delivered or kept. */
  lemma {:induction false} NothingInvented(w: RxWindow, ms: seq<DataMessage>)
    requires Valid(w) && AllBelow(ms, MAX_U64)
    ensures forall x | x in Run(w, ms).dispatched || x in Run(w, ms).window.buffer :: x in ms || x in w.buffer
    decreases |ms|
  {
    if ms != [] {
      ArriveSafe(w, ms[0]);
      EmplaceAt(w.buffer, ms[0]);
      NothingInvented(Arrive(w, ms[0]).window, ms[1..]);
    }
  }

  /** The largest tid is out of the guarantee: `nextExpected` saturates on it and
      its duplicate is delivered again. */
  lemma SaturatedTidRepeats(m: DataMessage)
    requires m.tid == MAX_U64
    ensures Run(RxWindow(MAX_U64, []), [m, m]).dispatched == [m, m]
  {
    var w := RxWindow(MAX_U64, []);
    RunSplit(w, m, [m]);
    RunOne(w, m);
  }

  // ------------------------------------------------------- ascending arrivals

  /** The tid expected at position `i` of a stream that started at `start`. */
  function Expected(start: nat, ms: seq<DataMessage>, i: nat): nat
    requires i <= |ms|
  {
    if i == 0 then start else ms[i - 1].tid + 1
  }

  /** Position `i` neither repeats nor jumps by 1 to 255. */
  predicate Passes(start: nat, ms: seq<DataMessage>, i: nat)
    requires i < |ms|
  {
    var e := Expected(start, ms, i);
    ms[i].tid == e || ms[i].tid >= e + RELIABLE_WINDOW_SIZE
  }

  /** A waiting window with a non-empty buffer delivers nothing that lies past it. */
  lemma {:induction false} StuckStaysStuck(w: RxWindow, ms: seq<DataMessage>)
    requires w.nextExpected > 0 && w.buffer != []
    requires AllFrom(ms, w.nextExpected + 1)
    ensures Run(w, ms).dispatched == []
    decreases |ms|
  {
    if ms != [] {
      StuckStaysStuck(Arrive(w, ms[0]).window, ms[1..]);
    }
  }

  /** `n` is the position of the stream's first small jump, or its end. */
  predicate FirstJump(start: nat, ms: seq<DataMessage>, n: nat) {
    && n <= |ms| && (forall i | 0 <= i < n :: Passes(start, ms, i))
    && (n < |ms| ==> !Passes(start, ms, n))
  }

  lemma FirstJumpTail(start: nat, ms: seq<DataMessage>, n: nat)
    requires ms != [] && FirstJump(start, ms, n)
    ensures Passes(start, [ms[0]], 0) == (n > 0)
    ensures n > 0 ==> FirstJump(ms[0].tid + 1, ms[1..], n - 1)
  {
    assert Passes(start, [ms[0]], 0) == Passes(start, ms, 0);
    var rest, next := ms[1..], ms[0].tid + 1;
    forall i | 0 <= i < |rest| && i + 1 <= n ensures Passes(next, rest, i) == (i + 1 < n) {
      assert rest[i] == ms[i + 1];
      assert Passes(next, rest, i) == Passes(start, ms, i + 1);
    }
  }

  lemma AscendingTail(ms: seq<DataMessage>, start: nat, bound: nat)
    requires ms != [] && Ascending(ms) && AllFrom(ms, start) && AllBelow(ms, bound)
    ensures Ascending(ms[1..]) && AllBelow(ms[1..], bound) && start <= ms[0].tid < bound
    ensures AllFrom(ms[1..], ms[0].tid + 1) && AllFrom(ms[1..], start + 1)
  {
    assert ms[0] in ms;
    forall m | m in ms[1..] ensures ms[0].tid < m.tid < bound {
      var i :| 0 <= i < |ms| - 1 && ms[1..][i] == m;
      assert ms[i + 1] == m;
    }
  }

  lemma FirstOfAscending(start: nat, m: DataMessage)
    requires 0 < start <= m.tid < MAX_U64
    ensures Arrive(RxWindow(start, []), m)
         == if Passes(start, [m], 0) then Outcome(RxWindow(m.tid + 1, []), [m]) else Outcome(RxWindow(start, [m]), [])
  {
  }

  /** A stream that opens with a small jump delivers nothing. */
  lemma JumpFirst(start: nat, ms: seq<DataMessage>)
    requires 0 < start && Ascending(ms) && AllFrom(ms, start) && AllBelow(ms, MAX_U64)
    requires FirstJump(start, ms, 0)
    ensures Run(RxWindow(start, []), ms).dispatched == []
  {
    if ms == [] {
      return;
    }
    hide *;
    AscendingTail(ms, start, MAX_U64);
    FirstOfAscending(start, ms[0]);
    FirstJumpTail(start, ms, 0);
    RunFirst(RxWindow(start, []), ms);
    StuckStaysStuck(RxWindow(start, [ms[0]]), ms[1..]);
  }

  /** Exactly what a strictly ascending stream into an empty baselined window
      delivers: everything up to its first jump of 1 to 255, and nothing after. */
  lemma {:induction false} GapBehaviour(start: nat, ms: seq<DataMessage>, n: nat)
    requires 0 < start && Ascending(ms) && AllFrom(ms, start) && AllBelow(ms, MAX_U64)
    requires FirstJump(start, ms, n)
    ensures Run(RxWindow(start, []), ms).dispatched == ms[..n]
    decreases n
  {
    hide Run, Arrive, Ascending, AllFrom, AllBelow, Passes;
    if n == 0 {
      JumpFirst(start, ms);
    } else {
      AscendingTail(ms, start, MAX_U64);
      FirstJumpTail(start, ms, n);
      hide FirstJump;
      FirstOfAscending(start, ms[0]);
      RunFirst(RxWindow(start, []), ms);
      GapBehaviour(ms[0].tid + 1, ms[1..], n - 1);
      TakeFirst(ms, n);
    }
  }

  lemma RunFirst(w: RxWindow, ms: seq<DataMessage>)
    requires ms != []
    ensures var first := Arrive(w, ms[0]);
            var rest := Run(first.window, ms[1..]);
            Run(w, ms) == Outcome(rest.window, first.dispatched + rest.dispatched)
  {
  }

  lemma TakeFirst<T>(s: seq<T>, n: nat)
    requires 0 < n <= |s|
    ensures s[..n] == [s[0]] + s[1..][..n - 1]
  {
  }

  // ---------------------------------------------------------- bounded reorder

  predicate HasTid(ms: seq<DataMessage>, tid: nat) { exists m <- ms :: m.tid == tid }

  function EmplaceAll(buffer: seq<DataMessage>, ms: seq<DataMessage>): seq<DataMessage>
    decreases |ms|
  {
    if ms == [] then buffer else EmplaceAll(Emplace(buffer, ms[0]), ms[1..])
  }

  lemma {:induction false} EmplaceAllTids(buffer: seq<DataMessage>, ms: seq<DataMessage>)
    requires Ascending(buffer)
    ensures var b := EmplaceAll(buffer, ms);
            && Ascending(b)
            && (forall x <- b :: x in buffer || x in ms)
            && (forall x <- buffer :: x in b)
            && (forall x <- ms :: HasTid(b, x.tid))
    decreases |ms|
  {
    if ms != [] {
      EmplaceAt(buffer, ms[0]);
      var next := Emplace(buffer, ms[0]);
      EmplaceAllTids(next, ms[1..]);
      assert HasTid(next, ms[0].tid) by {
        if y :| y in buffer && y.tid == ms[0].tid {
          assert y in next;
        } else {
          assert ms[0] in next;
        }
      }
      forall x | x in ms ensures HasTid(EmplaceAll(buffer, ms), x.tid) {
        if x != ms[0] {
          assert x in ms[1..];
        }
      }
    }
  }

  /** Frames within the window and ahead of `nextExpected` are all held back. */
  lemma {:induction false} HoldBack(w: RxWindow, ms: seq<DataMessage>)
    requires Valid(w) && 0 < w.nextExpected
    requires forall m <- ms :: w.nextExpected < m.tid < w.nextExpected + RELIABLE_WINDOW_SIZE && m.tid < MAX_U64
    ensures Run(w, ms) == Outcome(w.(buffer := EmplaceAll(w.buffer, ms)), [])
    ensures Valid(Run(w, ms).window)
    decreases |ms|
  {
    if ms != [] {
      BufferBounded(w);
      ArriveSafe(w, ms[0]);
      HoldBack(Arrive(w, ms[0]).window, ms[1..]);
    }
  }

  /** An ascending list that covers exactly `lo+1 .. lo+k` lists it in order. */
  lemma CoversInOrder(b: seq<DataMessage>, lo: nat, k: nat)
    requires Ascending(b)
    requires forall x <- b :: lo < x.tid <= lo + k
    requires forall t | lo < t <= lo + k :: HasTid(b, t)
    ensures |b| == k && forall i | 0 <= i < k :: b[i].tid == lo + 1 + i
  {
    assert forall i | 0 <= i < |b| :: b[i] in b && lo < b[i].tid <= lo + k;
    var n := 0;
    while n < k
      invariant n <= k && n <= |b|
      invariant forall i | 0 <= i < n :: b[i].tid == lo + 1 + i
    {
      assert HasTid(b, lo + 1 + n);
      var j :| 0 <= j < |b| && b[j].tid == lo + 1 + n;
      AscendingSpread(b, j);
      n := n + 1;
    }
    if |b| > k {
      AscendingSpread(b, k);
    }
  }

  /** Bounded reorder is lossless: when e+1 .. e+k have all arrived, in any order
      and with any duplicates, the late e releases e .. e+k in order. */
  lemma BoundedReorderLossless(e: nat, k: nat, ms: seq<DataMessage>, late: DataMessage)
    requires 0 < e && k < RELIABLE_WINDOW_SIZE && e + k < MAX_U64 && late.tid == e
    requires forall m <- ms :: e < m.tid <= e + k
    requires forall t | e < t <= e + k :: HasTid(ms, t)
    ensures Run(RxWindow(e, []), ms).dispatched == []
    ensures var o := Arrive(Run(RxWindow(e, []), ms).window, late);
            && o.window == RxWindow(e + k + 1, [])
            && |o.dispatched| == k + 1 && o.dispatched[0] == late
            && forall i | 0 <= i <= k :: o.dispatched[i].tid == e + i && o.dispatched[i] in ms + [late]
  {
    hide Run, EmplaceAll, Ascending, Arrive, HasTid;
    HoldBack(RxWindow(e, []), ms);
    EmplaceAllTids([], ms);
    var b := EmplaceAll([], ms);
    BufferCovers(e, k, ms, b);
    Release(e, b, late);
    ReleasedMembers(ms, b, late);
  }

  lemma ReleasedMembers(ms: seq<DataMessage>, b: seq<DataMessage>, late: DataMessage)
    requires forall x <- b :: x in ms
    ensures forall i | 0 <= i <= |b| :: ([late] + b)[i] in ms + [late]
  {
    forall i | 0 <= i <= |b| ensures ([late] + b)[i] in ms + [late] {
      if i > 0 {
        assert b[i - 1] in b;
      }
    }
  }

  lemma BufferCovers(e: nat, k: nat, ms: seq<DataMessage>, b: seq<DataMessage>)
    requires Ascending(b) && (forall x <- b :: x in ms) && (forall x <- ms :: HasTid(b, x.tid))
    requires (forall m <- ms :: e < m.tid <= e + k) && forall t | e < t <= e + k :: HasTid(ms, t)
    ensures |b| == k && forall i | 0 <= i < k :: b[i].tid == e + 1 + i
  {
    hide Ascending;
    forall t | e < t <= e + k ensures HasTid(b, t) {
      assert HasTid(ms, t);
    }
    CoversInOrder(b, e, k);
  }

  lemma Release(e: nat, b: seq<DataMessage>, late: DataMessage)
    requires 0 < e && late.tid == e && e + |b| < MAX_U64
    requires forall i | 0 <= i < |b| :: b[i].tid == e + 1 + i
    ensures Arrive(RxWindow(e, b), late) == Outcome(RxWindow(e + |b| + 1, []), [late] + b)
    ensures forall i | 0 <= i <= |b| :: ([late] + b)[i].tid == e + i
  {
    FlushNextPast(e + 1, b);
  }

  lemma {:induction false} RunConcat(w: RxWindow, a: seq<DataMessage>, b: seq<DataMessage>)
    ensures var first := Run(w, a);
            var rest := Run(first.window, b);
            Run(w, a + b) == Outcome(rest.window, first.dispatched + rest.dispatched)
    decreases |a|
  {
    hide Arrive;
    var ab := a + b;
    if a == [] {
      assert ab == b;
    } else {
      assert ab[1..] == a[1..] + b;
      RunConcat(Arrive(w, a[0]).window, a[1..], b);
    }
  }

  /** Frames behind `nextExpected` are dropped for good. */
  lemma {:induction false} BehindIsDropped(w: RxWindow, ms: seq<DataMessage>)
    requires 0 < w.nextExpected && AllBelow(ms, w.nextExpected)
    ensures Run(w, ms) == Outcome(w, [])
    decreases |ms|
  {
    if ms != [] {
      assert ms[0] in ms;
      BehindIsDropped(w, ms[1..]);
    }
  }

  /** Exactly when reorder within the window loses nothing: frames up to e+k arrive before
      e, the top one among them, and the others after it, in any order. All of e .. e+k
      are delivered if and only if e+1 .. e+k had all arrived by then. */
  lemma ReorderLosslessIff(e: nat, k: nat, early: seq<DataMessage>, late: DataMessage, after: seq<DataMessage>)
    requires 0 < e && k < RELIABLE_WINDOW_SIZE && e + k < MAX_U64 && late.tid == e
    requires (forall m <- early :: e < m.tid <= e + k) && (k > 0 ==> HasTid(early, e + k)) && AllBelow(after, e + k + 1)
    ensures (forall t | e <= t <= e + k :: HasTid(Run(RxWindow(e, []), early + [late] + after).dispatched, t))
        <==> (forall t | e < t <= e + k :: HasTid(early, t))
  {
    var b := EmplaceAll([], early);
    ReorderDelivers(e, k, early, late, after);
    EmplaceAllTids([], early);
    hide Run, EmplaceAll;
    forall t ensures HasTid([late] + b, t) <==> t == e || HasTid(early, t) {
      SameTids(early, late, b, t);
    }
  }

  lemma SameTids(early: seq<DataMessage>, late: DataMessage, b: seq<DataMessage>, t: nat)
    requires (forall x <- b :: x in early) && (forall x <- early :: HasTid(b, x.tid))
    ensures HasTid([late] + b, t) <==> t == late.tid || HasTid(early, t)
  {
    if x :| x in b && x.tid == t {
      assert x in [late] + b;
    }
    assert late in [late] + b;
    if x :| x in early && x.tid == t {
      var y :| y in b && y.tid == t;
      assert y in [late] + b;
    }
  }

  /** What such an arrival order delivers: e, then what was held back, by ascending tid. */
  lemma ReorderDelivers(e: nat, k: nat, early: seq<DataMessage>, late: DataMessage, after: seq<DataMessage>)
    requires 0 < e && k < RELIABLE_WINDOW_SIZE && e + k < MAX_U64 && late.tid == e
    requires (forall m <- early :: e < m.tid <= e + k) && (k > 0 ==> HasTid(early, e + k)) && AllBelow(after, e + k + 1)
    ensures Run(RxWindow(e, []), early + [late] + after)
          == Outcome(RxWindow(e + k + 1, []), [late] + EmplaceAll([], early))
  {
    var w, b := RxWindow(e, []), EmplaceAll([], early);
    HoldBack(w, early);
    EmplaceAllTids([], early);
    FlushedPastTop(e, k, early, b);
    hide Run, EmplaceAll, Ascending, AllBelow, HasTid, Valid;
    BehindIsDropped(RxWindow(e + k + 1, []), after);
    RunOne(RxWindow(e, b), late);
    RunConcat(w, early, [late]);
    RunConcat(w, early + [late], after);
    assert Arrive(RxWindow(e, b), late) == Outcome(RxWindow(e + k + 1, []), [late] + b);
    assert [] + ([late] + b) == [late] + b && ([late] + b) + [] == [late] + b;
  }

  lemma FlushedPastTop(e: nat, k: nat, early: seq<DataMessage>, b: seq<DataMessage>)
    requires e + k < MAX_U64 && Ascending(b) && (forall x <- b :: x in early) && (forall x <- early :: HasTid(b, x.tid))
    requires (forall m <- early :: e < m.tid <= e + k) && (k > 0 ==> HasTid(early, e + k))
    ensures FlushNext(SatInc(e), b) == e + k + 1
  {
    FlushNextPast(e + 1, b);
    hide FlushNext, Ascending;
    if k > 0 {
      var x :| x in early && x.tid == e + k;
      var y :| y in b && y.tid == e + k;
      var j :| 0 <= j < |b| && b[j] == y;
      LastIsTop(b, j);
      assert b[|b| - 1] in b;
    } else {
      assert b == [];
    }
  }

  lemma LastIsTop(b: seq<DataMessage>, j: nat)
    requires Ascending(b) && j < |b|
    ensures b[j].tid <= b[|b| - 1].tid
  {
  }

  // -------------------------------------------------------- arbitrary reorder

  /** Some frame past `a` has arrived although one between the two has not. */
  ghost predicate HoleAbove(before: seq<DataMessage>, a: nat) {
    exists t, b :: a < t < b && !HasTid(before, t) && HasTid(before, b)
  }

  /** `m` arrives for the first time as the last one missing below it, over a hole. */
  ghost predicate Overtakes(e: nat, before: seq<DataMessage>, m: DataMessage) {
    && !HasTid(before, m.tid) && (forall u | e <= u < m.tid :: HasTid(before, u))
    && HoleAbove(before, m.tid)
  }

  ghost predicate AllDelivered(out: seq<DataMessage>, e: nat, k: nat) { forall t | e <= t <= e + k :: HasTid(out, t) }

  /** Nothing is lost so far: everything below `nextExpected` was delivered, it is itself
      missing, and what lies past it is held exactly if it has arrived. */
  ghost predicate Intact(e: nat, k: nat, before: seq<DataMessage>, w: RxWindow, out: seq<DataMessage>) {
    && Valid(w) && 0 < e <= w.nextExpected
    && (forall t | e <= t < w.nextExpected :: HasTid(before, t) && HasTid(out, t))
    && !HasTid(before, w.nextExpected)
    && (forall t | w.nextExpected < t :: HasTid(before, t) ==> HasTid(w.buffer, t))
    && (forall x | x in out || x in w.buffer :: x in before)
    && (forall x <- before :: e <= x.tid <= e + k)
  }

  lemma HasTidAppend(a: seq<DataMessage>, b: seq<DataMessage>, t: nat)
    ensures HasTid(a + b, t) <==> HasTid(a, t) || HasTid(b, t)
  {
    if x :| x in a && x.tid == t {
      assert x in a + b;
    } else if x :| x in b && x.tid == t {
      assert x in a + b;
    }
  }

  lemma HasTidOne(a: seq<DataMessage>, m: DataMessage, t: nat)
    ensures HasTid(a + [m], t) <==> HasTid(a, t) || t == m.tid
  {
    HasTidAppend(a, [m], t);
    assert m in [m];
  }

  /** A frame that is not the expected one is held or dropped, and loses nothing. */
  lemma HeldOrDropped(e: nat, k: nat, before: seq<DataMessage>, w: RxWindow, out: seq<DataMessage>, m: DataMessage)
    requires Intact(e, k, before, w, out) && k < RELIABLE_WINDOW_SIZE && e + k < MAX_U64
    requires e <= m.tid <= e + k && m.tid != w.nextExpected
    ensures Arrive(w, m).dispatched == [] && Intact(e, k, before + [m], Arrive(w, m).window, out)
    ensures !Overtakes(e, before, m)
  {
    var w' := Arrive(w, m).window;
    BufferBounded(w);
    ArriveSafe(w, m);
    EmplaceAt(w.buffer, m);
    hide Valid, Emplace, Ascending;
    forall t ensures HasTid(before + [m], t) <==> HasTid(before, t) || t == m.tid {
      HasTidOne(before, m, t);
    }
    forall t | w'.nextExpected < t && HasTid(before + [m], t) ensures HasTid(w'.buffer, t) {
      if m.tid > w.nextExpected {
        EmplacedTid(w.buffer, m, t);
      }
    }
  }

  lemma EmplacedTid(buffer: seq<DataMessage>, m: DataMessage, t: nat)
    requires Ascending(buffer)
    ensures HasTid(Emplace(buffer, m), t) <==> HasTid(buffer, t) || t == m.tid
  {
    EmplaceAt(buffer, m);
    var b := Emplace(buffer, m);
    if x :| x in buffer && x.tid == t {
      assert x in b;
    }
    if y :| y in buffer && y.tid == m.tid {
      assert y in b;
    } else {
      assert m in b;
    }
  }

  lemma ExpectedArrives(w: RxWindow, m: DataMessage)
    requires Valid(w) && 0 < w.nextExpected == m.tid < MAX_U64
    ensures var o := Arrive(w, m);
            && o.dispatched == [m] + w.buffer && o.window.buffer == [] && m.tid < o.window.nextExpected
            && Valid(o.window) && AllBelow(w.buffer, o.window.nextExpected)
            && (m.tid + 1 < o.window.nextExpected ==> HasTid(w.buffer, o.window.nextExpected - 1))
  {
    FlushNextPast(m.tid + 1, w.buffer);
    if w.buffer != [] {
      assert w.buffer[|w.buffer| - 1] in w.buffer;
    }
  }

  /** The expected frame over no hole releases everything it is followed by. */
  lemma ReleasedWhole(e: nat, k: nat, before: seq<DataMessage>, w: RxWindow, out: seq<DataMessage>, m: DataMessage)
    requires Intact(e, k, before, w, out) && e + k < MAX_U64 && m.tid == w.nextExpected <= e + k
    requires !Overtakes(e, before, m)
    ensures Intact(e, k, before + [m], Arrive(w, m).window, out + Arrive(w, m).dispatched)
  {
    var w', d := Arrive(w, m).window, [m] + w.buffer;
    ExpectedArrives(w, m);
    hide Valid, Arrive;
    var n := w'.nextExpected;
    assert !HoleAbove(before, m.tid);
    forall t | m.tid < t < n ensures HasTid(w.buffer, t) {
      assert HasTid(before, n - 1);
      assert HasTid(before, t);
    }
    forall t | e <= t < n ensures HasTid(before + [m], t) && HasTid(out + d, t) {
      HasTidOne(before, m, t);
      HasTidAppend(out, d, t);
      HasTidAppend([m], w.buffer, t);
      assert m in [m];
    }
    forall t | n <= t ensures !HasTid(before + [m], t) {
      HasTidOne(before, m, t);
    }
    assert Valid(w') && w'.buffer == [];
  }

  /** Over a hole it jumps past a frame that has not come yet. */
  lemma ReleasedOverHole(e: nat, k: nat, before: seq<DataMessage>, w: RxWindow, out: seq<DataMessage>, m: DataMessage)
      returns (t: nat)
    requires Intact(e, k, before, w, out) && e + k < MAX_U64 && m.tid == w.nextExpected <= e + k
    requires Overtakes(e, before, m)
    ensures e <= t <= e + k && t < Arrive(w, m).window.nextExpected && !HasTid(out + Arrive(w, m).dispatched, t)
  {
    ExpectedArrives(w, m);
    hide Valid, Arrive;
    var lost, b :| m.tid < lost < b && !HasTid(before, lost) && HasTid(before, b);
    t := lost;
    assert HasTid(w.buffer, b);
    HasTidAppend(out, [m] + w.buffer, t);
    HasTidAppend([m], w.buffer, t);
  }

  lemma {:induction false} ReorderFrom(e: nat, k: nat, before: seq<DataMessage>, rest: seq<DataMessage>, w: RxWindow,
                                       out: seq<DataMessage>)
    requires Intact(e, k, before, w, out) && k < RELIABLE_WINDOW_SIZE && e + k < MAX_U64
    requires (forall m <- rest :: e <= m.tid <= e + k) && AllDelivered(before + rest, e, k)
    ensures AllDelivered(out + Run(w, rest).dispatched, e, k)
        <==> forall i | 0 <= i < |rest| :: !Overtakes(e, before + rest[..i], rest[i])
    decreases |rest|
  {
    hide Overtakes, Intact, AllDelivered, Run, Arrive, HasTid, HoleAbove;
    if rest == [] {
      NothingMore(w);
      assert before + rest == before && out + [] == out;
      EndsPast(e, k, before, w, out);
    } else {
      var m := rest[0];
      var o := Arrive(w, m);
      RunFirst(w, rest);
      assert before + rest[..0] == before && before + [m] + rest[1..] == before + rest;
      assert out + (o.dispatched + Run(o.window, rest[1..]).dispatched)
          == (out + o.dispatched) + Run(o.window, rest[1..]).dispatched;
      if Overtakes(e, before, m) {
        SomethingLost(e, k, before, rest, w, out);
      } else {
        StaysIntact(e, k, before, w, out, m);
        ReorderFrom(e, k, before + [m], rest[1..], o.window, out + o.dispatched);
        ShiftPositions(e, before, rest);
      }
    }
  }

  lemma NothingMore(w: RxWindow)
    ensures Run(w, []).dispatched == []
  {
  }

  lemma StaysIntact(e: nat, k: nat, before: seq<DataMessage>, w: RxWindow, out: seq<DataMessage>, m: DataMessage)
    requires Intact(e, k, before, w, out) && k < RELIABLE_WINDOW_SIZE && e + k < MAX_U64
    requires e <= m.tid <= e + k && !Overtakes(e, before, m)
    ensures Intact(e, k, before + [m], Arrive(w, m).window, out + Arrive(w, m).dispatched)
  {
    if m.tid == w.nextExpected {
      ReleasedWhole(e, k, before, w, out, m);
    } else {
      HeldOrDropped(e, k, before, w, out, m);
      assert out + [] == out;
    }
    hide Intact, Arrive, Overtakes;
  }

  lemma SomethingLost(e: nat, k: nat, before: seq<DataMessage>, rest: seq<DataMessage>,
        w: RxWindow, out: seq<DataMessage>)
    requires Intact(e, k, before, w, out) && k < RELIABLE_WINDOW_SIZE && e + k < MAX_U64
    requires rest != [] && (forall m <- rest :: e <= m.tid <= e + k) && Overtakes(e, before, rest[0])
    ensures var o := Arrive(w, rest[0]);
            !AllDelivered((out + o.dispatched) + Run(o.window, rest[1..]).dispatched, e, k)
  {
    var m := rest[0];
    hide Run, Arrive, HoleAbove, HasTid;
    if m.tid != w.nextExpected {
      HeldOrDropped(e, k, before, w, out, m);
    } else {
      var t := ReleasedOverHole(e, k, before, w, out, m);
      NeverAgain(w, m, rest[1..], out, t);
    }
  }

  lemma EndsPast(e: nat, k: nat, before: seq<DataMessage>, w: RxWindow, out: seq<DataMessage>)
    requires Intact(e, k, before, w, out) && AllDelivered(before, e, k)
    ensures AllDelivered(out, e, k)
  {
    hide Valid;
    assert w.nextExpected > e + k || HasTid(before, w.nextExpected);
  }

  lemma ShiftPositions(e: nat, before: seq<DataMessage>, rest: seq<DataMessage>)
    requires rest != [] && !Overtakes(e, before, rest[0])
    ensures (forall i | 0 <= i < |rest| :: !Overtakes(e, before + rest[..i], rest[i]))
        <==> (forall i | 0 <= i < |rest| - 1 :: !Overtakes(e, before + [rest[0]] + rest[1..][..i], rest[1..][i]))
  {
    hide Overtakes;
    var tail := rest[1..];
    assert before + rest[..0] == before;
    forall i | 0 <= i < |tail|
      ensures before + [rest[0]] + tail[..i] == before + rest[..i + 1] && tail[i] == rest[i + 1]
    {
      assert rest[..i + 1] == [rest[0]] + tail[..i];
    }
    if j :| 0 <= j < |rest| && Overtakes(e, before + rest[..j], rest[j]) {
      assert j > 0;
      assert Overtakes(e, before + [rest[0]] + tail[..j - 1], tail[j - 1]);
    }
  }

  /** What `nextExpected` has passed undelivered is never delivered. */
  lemma NeverAgain(w: RxWindow, m: DataMessage, rest: seq<DataMessage>, out: seq<DataMessage>, t: nat)
    requires Valid(w) && m.tid < MAX_U64 && AllBelow(rest, MAX_U64)
    requires var o := Arrive(w, m); t < o.window.nextExpected && !HasTid(out + o.dispatched, t)
    ensures var o := Arrive(w, m); !HasTid((out + o.dispatched) + Run(o.window, rest).dispatched, t)
  {
    var o := Arrive(w, m);
    ArriveSafe(w, m);
    WindowSafety(o.window, rest);
    hide Arrive, Run, Valid;
    HasTidAppend(out + o.dispatched, Run(o.window, rest).dispatched, t);
  }

  /** Exactly when an arbitrary reorder loses nothing: e .. e+k arrive in any order and
      with any duplicates. All are delivered if and only if no a < t < b arrive as b, a, t
      with everything below a ahead of a. */
  lemma AnyReorderLosslessIff(e: nat, k: nat, ms: seq<DataMessage>)
    requires 0 < e && k < RELIABLE_WINDOW_SIZE && e + k < MAX_U64
    requires (forall m <- ms :: e <= m.tid <= e + k) && (forall t | e <= t <= e + k :: HasTid(ms, t))
    ensures (forall t | e <= t <= e + k :: HasTid(Run(RxWindow(e, []), ms).dispatched, t))
        <==> !exists i :: 0 <= i < |ms| && Overtakes(e, ms[..i], ms[i])
  {
    hide Overtakes, Run, HasTid;
    assert [] + ms == ms;
    StartsIntact(e, k);
    ReorderFrom(e, k, [], ms, RxWindow(e, []), []);
    assert [] + Run(RxWindow(e, []), ms).dispatched == Run(RxWindow(e, []), ms).dispatched;
    forall i | 0 <= i < |ms| ensures [] + ms[..i] == ms[..i] {
    }
  }

  lemma StartsIntact(e: nat, k: nat)
    requires 0 < e && e + k < MAX_U64
    ensures Intact(e, k, [], RxWindow(e, []), [])
  {
  }

  /** The smallest loss: a delivery flushes the buffer, holes included, so 3, 1 deliver
      1, 3 and the late 2 is dropped. */
  lemma GapAbsorption(m: nat -> DataMessage)
    requires forall t :: m(t).tid == t
    ensures Run(RxWindow(1, []), [m(3), m(1), m(2)]) == Outcome(RxWindow(4, []), [m(1), m(3)])
  {
    var w := RxWindow(1, []);
    assert Arrive(w, m(3)) == Outcome(RxWindow(1, [m(3)]), []);
    assert FlushNext(2, [m(3)]) == FlushNext(4, []) == 4;
    assert Arrive(RxWindow(1, [m(3)]), m(1)) == Outcome(RxWindow(4, []), [m(1), m(3)]);
    RunOne(RxWindow(4, []), m(2));
    RunSplit(RxWindow(1, [m(3)]), m(1), [m(2)]);
    RunSplit(w, m(3), [m(1), m(2)]);
  }

  lemma RunSplit(w: RxWindow, m: DataMessage, ms: seq<DataMessage>)
    ensures var first := Arrive(w, m);
            var rest := Run(first.window, ms);
            Run(w, [m] + ms) == Outcome(rest.window, first.dispatched + rest.dispatched)
  {
    assert ([m] + ms)[1..] == ms;
  }

  lemma RunOne(w: RxWindow, m: DataMessage)
    ensures Run(w, [m]) == Arrive(w, m)
  {
    RunSplit(w, m, []);
    assert [m] + [] == [m];
  }
}
