/** The reliable receive state of a subscriber node: one window per (publisher,
    topic) and the set of publishers whose stream was just (re)established. */
module Receiver {
  import opened Keys
  import opened Numbers
  import opened Window

  /** What one stream read yields: presence leaves `reliable_data` empty. */
  datatype Frame = Presence | Reliable(data: DataMessage)

  datatype RxState = RxState(windows: map<string, RxWindow>, freshPublishers: set<nat>)

  datatype RxOutcome = RxOutcome(state: RxState, dispatched: seq<DataMessage>)

  const UNBASELINED := RxWindow(0, [])
  const DEFAULT_WINDOW := RxWindow(1, [])

  function KeyOf(m: DataMessage): string {
    WindowKey(m.uid, MakeCompositeKey(m.topicName, m.messageType))
  }

  /** Every window of publisher `uid` loses its buffer and its baseline. */
  function ResetWindows(windows: map<string, RxWindow>, uid: nat): map<string, RxWindow> {
    map key | key in windows :: if StartsWith(key, UidPrefix(uid)) then UNBASELINED else windows[key]
  }

  /** A fresh stream to `uid`: reset what exists, mark the publisher fresh. */
  function NoteEstablished(s: RxState, uid: nat): RxState {
    RxState(ResetWindows(s.windows, uid), s.freshPublishers + {uid})
  }

  /** The windows a frame of `m.uid` finds: a pending fresh marker resets them all,
      and the frame's own window is created when it is missing. */
  function WindowFor(s: RxState, m: DataMessage): RxWindow {
    if m.uid in s.freshPublishers then UNBASELINED
    else if KeyOf(m) in s.windows then s.windows[KeyOf(m)]
    else DEFAULT_WINDOW
  }

  function Handle(s: RxState, frame: Frame): RxOutcome {
    if frame.Presence? then RxOutcome(s, [])
    else
      var m := frame.data;
      var windows := if m.uid in s.freshPublishers then ResetWindows(s.windows, m.uid) else s.windows;
      var o := Arrive(WindowFor(s, m), m);
      RxOutcome(RxState(windows[KeyOf(m) := o.window], s.freshPublishers - {m.uid}), o.dispatched)
  }

  /** The cleaner forgets the windows of timed-out publishers. */
  function Prune(s: RxState, uids: set<nat>): RxState {
    s.(windows :=
      map key | key in s.windows && forall uid <- uids :: !StartsWith(key, UidPrefix(uid)) :: s.windows[key])
  }

  predicate ValidRx(s: RxState) {
    forall key <- s.windows :: Valid(s.windows[key])
  }

  lemma HandleKeepsValid(s: RxState, frame: Frame)
    requires ValidRx(s) && (frame.Reliable? ==> frame.data.tid < MAX_U64)
    ensures ValidRx(Handle(s, frame).state)
  {
    if frame.Reliable? {
      ArriveSafe(WindowFor(s, frame.data), frame.data);
    }
  }

  /** Resets, prunes and frames of a publisher leave every other publisher's
      windows as they were. */
  lemma OtherPublishersUntouched(s: RxState, uid: nat, frame: Frame, other: nat, composite: string)
    requires uid != other && (frame.Reliable? ==> frame.data.uid == uid)
    ensures var key := WindowKey(other, composite);
            && (key in NoteEstablished(s, uid).windows <==> key in s.windows)
            && (key in Handle(s, frame).state.windows <==> key in s.windows)
            && (key in Prune(s, {uid}).windows <==> key in s.windows)
            && (key in s.windows ==>
                  && NoteEstablished(s, uid).windows[key] == s.windows[key]
                  && Handle(s, frame).state.windows[key] == s.windows[key]
                  && Prune(s, {uid}).windows[key] == s.windows[key])
  {
    PrefixIdentifiesUid(other, composite, uid);
    if frame.Reliable? {
      WindowKeyInjective(frame.data.uid, MakeCompositeKey(frame.data.topicName, frame.data.messageType),
                other, composite);
    }
  }

  /** The frames of one stream handled one after another. */
  function Feed(s: RxState, ms: seq<DataMessage>): RxOutcome
    decreases |ms|
  {
    if ms == [] then RxOutcome(s, [])
    else
      var first := Handle(s, Reliable(ms[0]));
      var rest := Feed(first.state, ms[1..]);
      RxOutcome(rest.state, first.dispatched + rest.dispatched)
  }

  /** Frames of one topic, with no marker pending, run through that topic's window. */
  lemma {:induction false} FeedOneTopic(s: RxState, ms: seq<DataMessage>)
    requires ms != [] && ms[0].uid !in s.freshPublishers
    requires forall m <- ms :: m.uid == ms[0].uid && KeyOf(m) == KeyOf(ms[0])
    ensures Feed(s, ms).dispatched == Run(WindowFor(s, ms[0]), ms).dispatched
    decreases |ms|
  {
    if ms[1..] != [] {
      assert ms[1..][0] in ms;
      FeedOneTopic(Handle(s, Reliable(ms[0])).state, ms[1..]);
    }
  }

  /** Exactly what a topic's ascending frames deliver while no re-dial marker is pending and
      their window waits for tid `e` with nothing held back: everything up to their first
      jump of 1 to 255, counted from `e`; nothing at all (`n == 0`) if they open with one. */
  lemma ResumesFrom(s: RxState, later: seq<DataMessage>, e: nat, n: nat)
    requires later != [] && later[0].uid !in s.freshPublishers && WindowFor(s, later[0]) == RxWindow(e, [])
    requires forall m <- later :: m.uid == later[0].uid && KeyOf(m) == KeyOf(later[0])
    requires 1 <= e <= later[0].tid && Ascending(later) && AllBelow(later, MAX_U64) && FirstJump(e, later, n)
    ensures Feed(s, later).dispatched == later[..n]
    ensures n == 0 <==> e < later[0].tid < e + RELIABLE_WINDOW_SIZE
  {
    assert n > 0 ==> Passes(e, later, 0);
    assert AllFrom(later, e);
    GapBehaviour(e, later, n);
    FeedOneTopic(s, later);
    hide Run, Ascending, AllBelow, AllFrom, WindowFor;
  }

  /** A cleanup of the publisher forgets where its topics were: their frames count from 1
      again, so a topic that is past tid 1 by less than a window delivers nothing more. */
  lemma PrunedTopicResumes(s: RxState, uids: set<nat>, later: seq<DataMessage>, n: nat)
    requires later != [] && later[0].uid in uids && later[0].uid !in s.freshPublishers
    requires forall m <- later :: m.uid == later[0].uid && KeyOf(m) == KeyOf(later[0])
    requires 1 <= later[0].tid && Ascending(later) && AllBelow(later, MAX_U64) && FirstJump(1, later, n)
    ensures Feed(Prune(s, uids), later).dispatched == later[..n]
    ensures n == 0 <==> 1 < later[0].tid < 1 + RELIABLE_WINDOW_SIZE
  {
    var m := later[0];
    PrefixIdentifiesUid(m.uid, MakeCompositeKey(m.topicName, m.messageType), m.uid);
    hide Ascending, AllBelow, FirstJump, Feed, MakeCompositeKey, UidPrefix;
    ResumesFrom(Prune(s, uids), later, 1, n);
  }

  /** A dial notes the uid it was given. Under the publisher's own uid the topic starts over
      with its next frame; under one made up for a static seed nothing is reset, the frames
      count from where the window was, and a gap of 1 to 255 stalls the topic. */
  lemma RedialResumes(s: RxState, noted: nat, later: seq<DataMessage>, e: nat, n: nat)
    requires later != [] && later[0].uid !in s.freshPublishers && WindowFor(s, later[0]) == RxWindow(e, [])
    requires forall m <- later :: m.uid == later[0].uid && KeyOf(m) == KeyOf(later[0])
    requires 1 <= e <= later[0].tid && Ascending(later) && AllBelow(later, MAX_U64)
    requires FirstJump(if noted == later[0].uid then later[0].tid else e, later, n)
    ensures Feed(NoteEstablished(s, noted), later).dispatched == later[..n]
    ensures n == 0 <==> noted != later[0].uid && e < later[0].tid < e + RELIABLE_WINDOW_SIZE
  {
    var s', m := NoteEstablished(s, noted), later[0];
    if noted == m.uid {
      BaselineIsFirst(s', later, n);
    } else {
      PrefixIdentifiesUid(m.uid, MakeCompositeKey(m.topicName, m.messageType), noted);
      hide Ascending, AllBelow, FirstJump, Feed, MakeCompositeKey, UidPrefix;
      ResumesFrom(s', later, e, n);
    }
  }

  /** With the marker pending the first frame counts from itself. */
  lemma BaselineIsFirst(s: RxState, later: seq<DataMessage>, n: nat)
    requires later != [] && later[0].uid in s.freshPublishers
    requires forall m <- later :: m.uid == later[0].uid && KeyOf(m) == KeyOf(later[0])
    requires 1 <= later[0].tid && Ascending(later) && AllBelow(later, MAX_U64) && FirstJump(later[0].tid, later, n)
    ensures n > 0 && Feed(s, later).dispatched == later[..n]
  {
    var m := later[0];
    var s' := Handle(s, Reliable(m)).state;
    assert m in later && Passes(m.tid, later, 0);
    assert Handle(s, Reliable(m)).dispatched == [m] && WindowFor(s', m) == RxWindow(m.tid + 1, []);
    TakeFirst(later, n);
    FirstJumpTail(m.tid, later, n);
    if later[1..] != [] {
      AscendingTail(later, 1, MAX_U64);
      assert later[1..][0] in later && later[1..][0] in later[1..];
      assert WindowFor(s', later[1..][0]) == WindowFor(s', m);
      hide Ascending, FirstJump, Handle, WindowFor;
      ResumesFrom(s', later[1..], m.tid + 1, n - 1);
    }
  }

  /** The fresh marker is spent on the first frame of whatever topic. A second topic whose
      window does not exist yet then counts from 1. */
  lemma FreshMarkerSecondTopic(s: RxState, a: DataMessage, later: seq<DataMessage>, n: nat)
    requires later != [] && later[0].tid >= 1 && KeyOf(later[0]) !in s.windows
    requires forall m <- later :: m.uid == a.uid && KeyOf(m) == KeyOf(later[0]) != KeyOf(a)
    requires a.tid < MAX_U64 && AllBelow(later, MAX_U64) && Ascending(later) && FirstJump(1, later, n)
    ensures Feed(NoteEstablished(s, a.uid), [a] + later).dispatched == [a] + later[..n]
    ensures n == 0 <==> 1 < later[0].tid < 1 + RELIABLE_WINDOW_SIZE
  {
    FirstSpendsMarker(s, a);
    assert ([a] + later)[1..] == later;
    hide Run, FirstJump, Ascending, AllBelow, Handle, NoteEstablished;
    ResumesFrom(Handle(NoteEstablished(s, a.uid), Reliable(a)).state, later, 1, n);
  }

  /** Right after a re-dial the first frame is delivered, spends the marker and creates no
      window but its own. */
  lemma FirstSpendsMarker(s: RxState, a: DataMessage)
    requires a.tid < MAX_U64
    ensures var o := Handle(NoteEstablished(s, a.uid), Reliable(a));
            && o.dispatched == [a] && a.uid !in o.state.freshPublishers
            && o.state.windows.Keys == s.windows.Keys + {KeyOf(a)}
  {
  }

  /** The node's reliable receive state, updated in place. */
  class ReliableReceiver {
    var windows: map<string, RxWindow>
    var freshPublishers: set<nat>

    ghost function State(): RxState
      reads this
    {
      RxState(windows, freshPublishers)
    }

    constructor ()
      ensures State() == RxState(map[], {})
    {
      windows, freshPublishers := map[], {};
    }

    method ResetPublisher(uid: nat)
      modifies this`windows
      ensures windows == ResetWindows(old(windows), uid)
    {
      var todo := windows.Keys;
      while todo != {}
        invariant todo <= windows.Keys == old(windows).Keys
        invariant forall key <- windows ::
          windows[key] == if key in todo then old(windows)[key] else ResetWindows(old(windows), uid)[key]
      {
        var key :| key in todo;
        if StartsWith(key, UidPrefix(uid)) {
          windows := windows[key := RxWindow(0, [])];
        }
        todo := todo - {key};
      }
    }

    method NoteReliableStreamEstablished(uid: nat)
      modifies this
      ensures State() == NoteEstablished(old(State()), uid)
    {
      freshPublishers := freshPublishers + {uid};
      ResetPublisher(uid);
    }

    /** Returns what becomes deliverable; the caller dispatches it after the lock. */
    method HandleReliableDataFrame(frame: Frame) returns (toDispatch: seq<DataMessage>)
      modifies this
      ensures State() == Handle(old(State()), frame).state
      ensures toDispatch == Handle(old(State()), frame).dispatched
    {
      toDispatch := [];
      if frame.Presence? {
        return;
      }
      var data := frame.data;
      var tid := data.tid;
      var winKey := KeyOf(data);
      var wasFresh := data.uid in freshPublishers;
      freshPublishers := freshPublishers - {data.uid};
      if wasFresh {
        ResetPublisher(data.uid);
      }
      var w := if winKey in windows then windows[winKey] else RxWindow(1, []);
      if wasFresh {
        w := RxWindow(0, []);
      }
      if w.nextExpected == 0 {
        w := w.(nextExpected := tid);
        w, toDispatch := DeliverAndFlush(w, data);
      } else if tid == w.nextExpected {
        w, toDispatch := DeliverAndFlush(w, data);
      } else if tid > w.nextExpected {
        if tid - w.nextExpected < RELIABLE_WINDOW_SIZE && |w.buffer| < RELIABLE_WINDOW_SIZE {
          w := w.(buffer := Emplace(w.buffer, data));
        } else if tid - w.nextExpected >= RELIABLE_WINDOW_SIZE && w.buffer == [] {
          w := w.(nextExpected := tid);
          w, toDispatch := DeliverAndFlush(w, data);
        }
      }
      windows := windows[winKey := w];
    }

    /** The delivery closure: push the frame, then empty the buffer front first. */
    static method DeliverAndFlush(w0: RxWindow, m: DataMessage) returns (w: RxWindow, toDispatch: seq<DataMessage>)
      ensures Outcome(w, toDispatch) == Deliver(w0, m)
    {
      w, toDispatch := w0, [m];
      if w.nextExpected < MAX_U64 {
        w := w.(nextExpected := w.nextExpected + 1);
      }
      while w.buffer != []
        invariant toDispatch + w.buffer == [m] + w0.buffer
        invariant FlushNext(w.nextExpected, w.buffer) == FlushNext(SatInc(w0.nextExpected), w0.buffer)
        decreases |w.buffer|
      {
        var front := w.buffer[0];
        toDispatch := toDispatch + [front];
        var next := Max(w.nextExpected, front.tid);
        if next < MAX_U64 {
          next := next + 1;
        }
        w := RxWindow(next, w.buffer[1..]);
      }
    }

    /** Phase 3 of the timeout cleanup. */
    method PruneWindows(stale: seq<nat>)
      modifies this`windows
      ensures windows == Prune(old(State()), set uid | uid in stale).windows
    {
      for i := 0 to |stale|
        invariant windows == Prune(old(State()), set uid | uid in stale[..i]).windows
      {
        ghost var before := windows;
        var prefix := UidPrefix(stale[i]);
        var todo := windows.Keys;
        while todo != {}
          invariant todo <= before.Keys
          invariant windows == map key | key in before && (key in todo || !StartsWith(key, prefix)) :: before[key]
        {
          var key :| key in todo;
          if StartsWith(key, prefix) {
            windows := windows - {key};
          }
          todo := todo - {key};
        }
        assert stale[..i + 1] == stale[..i] + [stale[i]];
      }
      assert stale[..|stale|] == stale;
    }
  }
}
