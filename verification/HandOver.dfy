/** What the application sees: the node releases frames under its lock, and each reader
    hands its own to the callbacks after it has left the lock. Two readers may so hand over
    in another order than the lock released. */
module HandOver {
  import opened Keys
  import opened Numbers
  import opened Window
  import opened Receiver
  import opened Overlap

  /** A released frame in the hands of the reader of stream `g`. */
  datatype Held = Held(g: nat, m: DataMessage)

  /** `o` is the receive state and all that was released, `hands` what of it is still to be
      handed over, in the order of release, `app` what the callbacks got. */
  datatype Node = Node(o: RxOutcome, hands: seq<Held>, app: seq<DataMessage>)

  /** A section under the lock, or the hand-over of a reader's next frame. */
  datatype Move = Section(e: Event) | Hand(g: nat)

  /** The first frame in the hands of `g`; none if it is at the end. */
  function First(hands: seq<Held>, g: nat): (i: nat)
    ensures i <= |hands| && (i < |hands| ==> hands[i].g == g) && forall j | 0 <= j < i :: hands[j].g != g
  {
    if hands == [] || hands[0].g == g then 0 else 1 + First(hands[1..], g)
  }

  function Batch(g: nat, ms: seq<DataMessage>): seq<Held> { seq(|ms|, i requires 0 <= i < |ms| => Held(g, ms[i])) }

  function Frames(hands: seq<Held>): seq<DataMessage> { seq(|hands|, i requires 0 <= i < |hands| => hands[i].m) }

  function Move1(n: Node, move: Move): Node {
    match move
    case Section(e) =>
      n.(o := Apply(n.o, e),
         hands := if e.Take? then n.hands + Batch(e.g, Handle(n.o.state, Reliable(e.m)).dispatched) else n.hands)
    case Hand(g) =>
      var i := First(n.hands, g);
      if i == |n.hands| then n
      else n.(hands := n.hands[..i] + n.hands[i + 1..], app := n.app + [n.hands[i].m])
  }

  function Perform(moves: seq<Move>): Node
    decreases |moves|
  {
    if moves == [] then Node(Serve([]), [], [])
    else Move1(Perform(moves[..|moves| - 1]), moves[|moves| - 1])
  }

  /** A reader takes its next frame with empty hands, and hands over what it holds. */
  predicate Can(n: Node, move: Move) {
    match move
    case Section(e) => e.Take? ==> First(n.hands, e.g) == |n.hands|
    case Hand(g) => First(n.hands, g) < |n.hands|
  }

  ghost predicate Feasible(moves: seq<Move>) { forall i | 0 <= i < |moves| :: Can(Perform(moves[..i]), moves[i]) }

  /** The sections of a run, in order. */
  function Sections(moves: seq<Move>): seq<Event>
    decreases |moves|
  {
    if moves == [] then []
    else
      var last := moves[|moves| - 1];
      Sections(moves[..|moves| - 1]) + if last.Section? then [last.e] else []
  }

  lemma PerformMore(moves: seq<Move>, move: Move)
    ensures Perform(moves + [move]) == Move1(Perform(moves), move)
    ensures Sections(moves + [move]) == Sections(moves) + if move.Section? then [move.e] else []
  {
    assert (moves + [move])[..|moves|] == moves;
  }

  /** The receive side does not depend on the hand-over. */
  lemma {:induction false} SectionsServed(moves: seq<Move>)
    ensures Perform(moves).o == Serve(Sections(moves))
    decreases |moves|
  {
    hide Apply, First;
    if moves != [] {
      var init, last := moves[..|moves| - 1], moves[|moves| - 1];
      assert moves == init + [last];
      SectionsServed(init);
      PerformMore(init, last);
      if last.Section? {
        ServeMore(Sections(init), last.e);
      } else {
        assert Sections(init) + [] == Sections(init);
      }
    }
  }

  // ------------------------------------------------------------- what moves where

  lemma {:induction false} ForJoin(key: string, a: seq<DataMessage>, b: seq<DataMessage>)
    ensures For(key, a + b) == For(key, a) + For(key, b)
    decreases |b|
  {
    hide KeyOf;
    if b == [] {
      assert a + b == a;
    } else {
      var init, last := b[..|b| - 1], b[|b| - 1];
      assert (a + b)[..|a + b| - 1] == a + init && b == init + [last];
      ForJoin(key, a, init);
    }
  }

  lemma ForOne(key: string, m: DataMessage)
    ensures For(key, []) == [] && For(key, [m]) == if KeyOf(m) == key then [m] else []
  {
    assert [m][..0] == [];
  }

  function Released(n: Node, key: string): seq<DataMessage> { For(key, n.o.dispatched) }

  function Waiting(n: Node, key: string): seq<DataMessage> { For(key, Frames(n.hands)) }

  function Seen(n: Node, key: string): seq<DataMessage> { For(key, n.app) }

  /** A section releases into the hands. */
  lemma SectionMoves(n: Node, e: Event, key: string)
    ensures var n' := Move1(n, Section(e));
            && Seen(n', key) == Seen(n, key)
            && exists d :: Released(n', key) == Released(n, key) + d && Waiting(n', key) == Waiting(n, key) + d
  {
    var n' := Move1(n, Section(e));
    if e.Take? {
      var d := Handle(n.o.state, Reliable(e.m)).dispatched;
      hide Handle, For, KeyOf;
      assert Frames(n'.hands) == Frames(n.hands) + d;
      ForJoin(key, n.o.dispatched, d);
      ForJoin(key, Frames(n.hands), d);
      assert Released(n', key) == Released(n, key) + For(key, d) && Waiting(n', key) == Waiting(n, key) + For(key, d);
    } else {
      hide NoteEstablished, Prune, For;
      assert Released(n', key) == Released(n, key) + [] && Waiting(n', key) == Waiting(n, key) + [];
    }
  }

  /** A hand-over takes one frame from the hands; `a` is waiting before it, `b` behind. */
  lemma HandMoves(n: Node, g: nat, key: string) returns (a: seq<DataMessage>, x: seq<DataMessage>, b: seq<DataMessage>)
    ensures var n' := Move1(n, Hand(g)); var i := First(n.hands, g);
            && Released(n', key) == Released(n, key) && Seen(n', key) == Seen(n, key) + x
            && Waiting(n, key) == a + (x + b) && Waiting(n', key) == a + b
            && x == (if i < |n.hands| && KeyOf(n.hands[i].m) == key then [n.hands[i].m] else [])
            && a == For(key, Frames(n.hands[..i]))
  {
    var i := First(n.hands, g);
    hide First, For, KeyOf, Handle;
    var all := Frames(n.hands);
    a := For(key, Frames(n.hands[..i]));
    if i == |n.hands| {
      x, b := [], [];
      assert n.hands[..i] == n.hands && Seen(n, key) + [] == Seen(n, key) && a + [] == a;
    } else {
      var m := n.hands[i].m;
      var before, behind := Frames(n.hands[..i]), Frames(n.hands[i + 1..]);
      x, b := For(key, [m]), For(key, behind);
      ForOne(key, m);
      assert all == before + ([m] + behind);
      ForJoin(key, before, [m] + behind);
      ForJoin(key, [m], behind);
      ForJoin(key, n.app, [m]);
      assert Frames(n.hands[..i] + n.hands[i + 1..]) == before + behind;
      ForJoin(key, before, behind);
    }
  }

  /** The frame handed over is the topic's oldest that is still in anybody's hands. */
  predicate InTurn(n: Node, move: Move, key: string) {
    move.Hand? ==>
      var i := First(n.hands, move.g);
      i < |n.hands| && KeyOf(n.hands[i].m) == key ==> forall j | 0 <= j < i :: KeyOf(n.hands[j].m) != key
  }

  ghost predicate AllInTurn(moves: seq<Move>, key: string) {
    forall i | 0 <= i < |moves| :: InTurn(Perform(moves[..i]), moves[i], key)
  }

  lemma AllInTurnMore(moves: seq<Move>, move: Move, key: string)
    ensures AllInTurn(moves + [move], key) <==> AllInTurn(moves, key) && InTurn(Perform(moves), move, key)
  {
    var more := moves + [move];
    assert forall i | 0 <= i < |moves| :: more[..i] == moves[..i] && more[i] == moves[i];
    assert more[..|moves|] == moves && more[|moves|] == move;
    hide Perform, InTurn;
    if AllInTurn(more, key) {
      assert InTurn(Perform(more[..|moves|]), more[|moves|], key);
      forall i | 0 <= i < |moves| ensures InTurn(Perform(moves[..i]), moves[i], key) {
        assert InTurn(Perform(more[..i]), more[i], key);
      }
    }
  }

  lemma NoneBefore(hands: seq<Held>, key: string)
    ensures For(key, Frames(hands)) == [] <==> forall j | 0 <= j < |hands| :: KeyOf(hands[j].m) != key
  {
    ForMembers(key, Frames(hands));
    hide For, KeyOf;
    var ms := Frames(hands);
    if For(key, ms) != [] {
      var x := For(key, ms)[0];
      assert x in For(key, ms);
    } else {
      forall j | 0 <= j < |hands| ensures KeyOf(hands[j].m) != key {
        assert ms[j] == hands[j].m && ms[j] in ms;
      }
    }
  }

  predicate DistinctTids(ms: seq<DataMessage>) { forall i, j | 0 <= i < j < |ms| :: ms[i].tid != ms[j].tid }

  /** The application has got another frame where the lock released `released[k]`. */
  predicate Deviates(seen: seq<DataMessage>, released: seq<DataMessage>) {
    exists k :: 0 <= k < |seen| && k < |released| && seen[k] != released[k]
  }

  lemma DeviatesOn(seen: seq<DataMessage>, released: seq<DataMessage>, x: seq<DataMessage>, d: seq<DataMessage>)
    requires Deviates(seen, released)
    ensures Deviates(seen + x, released + d)
  {
    var k :| 0 <= k < |seen| && k < |released| && seen[k] != released[k];
    assert (seen + x)[k] == seen[k] && (released + d)[k] == released[k];
  }

  /** So far the application saw the release order, and the rest is waiting; or it has
      left that order for good. */
  predicate Tracks(n: Node, key: string, inTurn: bool) {
    if inTurn then Released(n, key) == Seen(n, key) + Waiting(n, key)
    else Deviates(Seen(n, key), Released(n, key))
  }

  lemma SectionTracks(n: Node, e: Event, key: string, inTurn: bool)
    requires Tracks(n, key, inTurn)
    ensures Tracks(Move1(n, Section(e)), key, inTurn)
  {
    SectionMoves(n, e, key);
    hide Move1, Released, Waiting, Seen, Deviates;
    var n' := Move1(n, Section(e));
    var d :| Released(n', key) == Released(n, key) + d && Waiting(n', key) == Waiting(n, key) + d;
    if inTurn {
      assert (Seen(n, key) + Waiting(n, key)) + d == Seen(n, key) + (Waiting(n, key) + d);
    } else {
      DeviatesOn(Seen(n, key), Released(n, key), [], d);
      assert Seen(n, key) + [] == Seen(n, key);
    }
  }

  lemma InTurnIs(n: Node, g: nat, key: string)
    ensures var i := First(n.hands, g);
            InTurn(n, Hand(g), key) <==>
              (i < |n.hands| && KeyOf(n.hands[i].m) == key ==> For(key, Frames(n.hands[..i])) == [])
  {
    var i := First(n.hands, g);
    NoneBefore(n.hands[..i], key);
    hide For, KeyOf, Frames, First;
    assert forall j | 0 <= j < i :: n.hands[..i][j] == n.hands[j];
  }

  lemma HandTracks(n: Node, g: nat, key: string, inTurn: bool)
    requires Tracks(n, key, inTurn) && DistinctTids(Released(n, key))
    ensures Tracks(Move1(n, Hand(g)), key, inTurn && InTurn(n, Hand(g), key))
  {
    hide Move1, Released, Waiting, Seen, InTurn, First, For, Frames, DistinctTids, Deviates, KeyOf;
    var a, x, b := HandMoves(n, g, key);
    InTurnIs(n, g, key);
    OneHanded(Seen(n, key), Released(n, key), a, x, b, inTurn);
  }

  lemma OneHanded(seen: seq<DataMessage>, released: seq<DataMessage>,
                  a: seq<DataMessage>, x: seq<DataMessage>, b: seq<DataMessage>, inTurn: bool)
    requires if inTurn then released == seen + (a + (x + b)) else Deviates(seen, released)
    requires DistinctTids(released)
    ensures if inTurn && (x == [] || a == []) then released == (seen + x) + (a + b) else Deviates(seen + x, released)
  {
    if !inTurn {
      DeviatesOn(seen, released, x, []);
      assert released + [] == released;
    } else if x == [] || a == [] {
      assert seen + (a + (x + b)) == (seen + x) + (a + b);
    } else {
      assert released[|seen|] == a[0] && released[|seen| + |a|] == x[0] && (seen + x)[|seen|] == x[0];
    }
  }

  lemma ReleasedGrows(n: Node, move: Move, key: string)
    ensures Released(n, key) <= Released(Move1(n, move), key)
  {
    if move.Section? {
      SectionMoves(n, move.e, key);
    } else {
      var a, x, b := HandMoves(n, move.g, key);
    }
    hide Move1, Released, Waiting, Seen;
  }

  lemma DistinctPrefix(a: seq<DataMessage>, b: seq<DataMessage>)
    requires a <= b && DistinctTids(b)
    ensures DistinctTids(a)
  {
    assert forall i | 0 <= i < |a| :: a[i] == b[i];
  }

  lemma {:induction false} TracksRun(moves: seq<Move>, key: string)
    requires DistinctTids(Released(Perform(moves), key))
    ensures Tracks(Perform(moves), key, AllInTurn(moves, key))
    decreases |moves|
  {
    hide Move1, Released, InTurn, Tracks;
    if moves == [] {
      NothingPerformed(key);
    } else {
      var init, last := moves[..|moves| - 1], moves[|moves| - 1];
      assert moves == init + [last];
      PerformMore(init, last);
      AllInTurnMore(init, last, key);
      hide AllInTurn, Perform;
      ReleasedGrows(Perform(init), last, key);
      DistinctPrefix(Released(Perform(init), key), Released(Perform(moves), key));
      TracksRun(init, key);
      if last.Section? {
        SectionTracks(Perform(init), last.e, key, AllInTurn(init, key));
        assert InTurn(Perform(init), last, key) by { SectionInTurn(Perform(init), last, key); }
      } else {
        HandTracks(Perform(init), last.g, key, AllInTurn(init, key));
      }
    }
  }

  lemma SectionInTurn(n: Node, move: Move, key: string)
    requires move.Section?
    ensures InTurn(n, move, key)
  {
  }

  lemma NothingPerformed(key: string)
    ensures Tracks(Perform([]), key, true)
  {
  }

  // -------------------------------------------------------------------- theorems

  /** However sections and hand-overs interleave, at every point: the application has seen
      a topic in the order in which the lock released it, and the rest is waiting, if and
      only if each of its frames was handed over in turn. */
  lemma HandedInTurnIff(moves: seq<Move>, uid: nat, t: string)
    requires forall e <- Sections(moves) :: Sensible(e)
    requires StreamsOrdered(Sections(moves), WindowKey(uid, t))
    ensures var n, key := Perform(moves), WindowKey(uid, t);
            && (Seen(n, key) <= Released(n, key) <==> AllInTurn(moves, key))
            && (AllInTurn(moves, key) ==> Released(n, key) == Seen(n, key) + Waiting(n, key))
  {
    hide Perform, Serve, For, AllInTurn, StreamsOrdered, Sensible;
    var key := WindowKey(uid, t);
    OnceInAnyOrder(Sections(moves), uid, t);
    SectionsServed(moves);
    TracksRun(moves, key);
    hide Frames, Sections;
  }

  lemma {:induction false} AscendingUnique(a: seq<DataMessage>, b: seq<DataMessage>)
    requires Ascending(a) && Ascending(b) && multiset(a) == multiset(b)
    ensures a == b
    decreases |a|
  {
    assert |a| == |multiset(a)| == |multiset(b)| == |b|;
    if a != [] {
      SameLast(a, b);
      WithoutLast(a);
      WithoutLast(b);
      hide Ascending;
      AscendingUnique(a[..|a| - 1], b[..|b| - 1]);
    }
  }

  lemma WithoutLast(a: seq<DataMessage>)
    requires Ascending(a) && a != []
    ensures var init, last := a[..|a| - 1], a[|a| - 1];
            a == init + [last] && Ascending(init) && multiset(init) == multiset(a) - multiset{last}
  {
    assert a == a[..|a| - 1] + [a[|a| - 1]];
  }

  lemma SameLast(a: seq<DataMessage>, b: seq<DataMessage>)
    requires Ascending(a) && Ascending(b) && multiset(a) == multiset(b) && a != [] && b != []
    ensures a[|a| - 1] == b[|b| - 1]
  {
    var x, y := a[|a| - 1], b[|b| - 1];
    assert x in multiset(b) && y in multiset(a);
    var i :| 0 <= i < |b| && b[i] == x;
    var j :| 0 <= j < |a| && a[j] == y;
  }

  /** Nothing is lost or doubled between the lock and the application. */
  predicate Accounted(n: Node, key: string) {
    multiset(Released(n, key)) == multiset(Seen(n, key)) + multiset(Waiting(n, key))
  }

  lemma {:induction false} HandsAccount(moves: seq<Move>, key: string)
    ensures Accounted(Perform(moves), key)
    decreases |moves|
  {
    hide Move1, Released, Waiting, Seen;
    if moves == [] {
      NothingAccounted(key);
    } else {
      var init, last := moves[..|moves| - 1], moves[|moves| - 1];
      assert moves == init + [last];
      PerformMore(init, last);
      HandsAccount(init, key);
      var n := Perform(init);
      hide Perform;
      if last.Section? {
        SectionMoves(n, last.e, key);
      } else {
        var a, x, b := HandMoves(n, last.g, key);
        assert multiset(a + (x + b)) == multiset(x) + multiset(a + b);
      }
    }
  }

  lemma NothingAccounted(key: string)
    ensures Accounted(Perform([]), key)
  {
  }

  /** Main theorem. In a run in which every window of the topic opens in order and all of the
      topic was handed over, the application sees it in order if and only if each of its
      frames was handed over in turn. */
  lemma ApplicationOrderIff(moves: seq<Move>, uid: nat, t: string)
    requires forall e <- Sections(moves) :: Sensible(e)
    requires AllOpenInOrder(Sections(moves), WindowKey(uid, t)) && Waiting(Perform(moves), WindowKey(uid, t)) == []
    ensures var key := WindowKey(uid, t); Ascending(Seen(Perform(moves), key)) <==> AllInTurn(moves, key)
  {
    hide Perform, Serve, For, AllInTurn, AllOpenInOrder, Sensible, InStep, Frames, Sections;
    var key := WindowKey(uid, t);
    var n := Perform(moves);
    OverlapOrderIff(Sections(moves), uid, t);
    SectionsServed(moves);
    TracksRun(moves, key);
    HandsAccount(moves, key);
    var seen := Seen(n, key);
    hide Released, Seen, Waiting;
    if Ascending(seen) {
      assert multiset(seen) + multiset([]) == multiset(seen);
      AscendingUnique(seen, Released(n, key));
    } else {
      assert seen + [] == seen;
    }
  }

  /** All hands were empty at each take. */
  ghost predicate OneAtATime(moves: seq<Move>) {
    forall i | 0 <= i < |moves| && moves[i].Section? && moves[i].e.Take? :: Perform(moves[..i]).hands == []
  }

  predicate SameHands(hands: seq<Held>) { forall i, j | 0 <= i < j < |hands| :: hands[i].g == hands[j].g }

  /** While readers take turns as a whole, the application's log is the lock's. */
  lemma {:induction false} OneAtATimeKeepsOrder(moves: seq<Move>)
    requires Feasible(moves) && OneAtATime(moves)
    ensures var n := Perform(moves); SameHands(n.hands) && n.o.dispatched == n.app + Frames(n.hands)
    decreases |moves|
  {
    hide Perform, Move1, Frames, SameHands, First, Can;
    if moves == [] {
      NothingReleased();
    } else {
      var k := |moves| - 1;
      var init, last := moves[..k], moves[k];
      assert forall i | 0 <= i < k :: init[..i] == moves[..i] && init[i] == moves[i];
      OneAtATimeKeepsOrder(init);
      assert moves == init + [last];
      PerformMore(init, last);
      assert Can(Perform(moves[..k]), moves[k]);
      OneMoveKeeps(Perform(init), last);
    }
  }

  lemma NothingReleased()
    ensures var n := Perform([]); SameHands(n.hands) && n.o.dispatched == n.app + Frames(n.hands)
  {
  }

  lemma OneMoveKeeps(n: Node, move: Move)
    requires SameHands(n.hands) && n.o.dispatched == n.app + Frames(n.hands) && Can(n, move)
    requires move.Section? && move.e.Take? ==> n.hands == []
    ensures var n' := Move1(n, move); SameHands(n'.hands) && n'.o.dispatched == n'.app + Frames(n'.hands)
  {
    if move.Hand? {
      HandsFirst(n, move.g);
    } else if move.e.Take? {
      var d := Handle(n.o.state, Reliable(move.e.m)).dispatched;
      hide Handle;
      assert [] + Batch(move.e.g, d) == Batch(move.e.g, d) && Frames(Batch(move.e.g, d)) == d;
      assert n.app + Frames([]) == n.app;
    }
  }

  lemma HandsFirst(n: Node, g: nat)
    requires SameHands(n.hands) && n.o.dispatched == n.app + Frames(n.hands) && First(n.hands, g) < |n.hands|
    ensures var n' := Move1(n, Hand(g)); SameHands(n'.hands) && n'.o.dispatched == n'.app + Frames(n'.hands)
  {
    assert First(n.hands, g) == 0;
    hide First, Handle, SameHands, Frames;
    Behead(n.hands);
    var x, rest := n.hands[0], n.hands[1..];
    assert (n.app + [x.m]) + Frames(rest) == n.app + ([x.m] + Frames(rest));
  }

  lemma Behead(hands: seq<Held>)
    requires SameHands(hands) && hands != []
    ensures hands[..0] + hands[1..] == hands[1..]
    ensures SameHands(hands[1..]) && Frames(hands) == [hands[0].m] + Frames(hands[1..])
  {
    assert forall i | 0 <= i < |hands| - 1 :: hands[1..][i] == hands[i + 1];
  }

  /** So one reader at a time is enough, if it finishes before the next one takes. */
  lemma OneReaderSeenInOrder(moves: seq<Move>, uid: nat, t: string)
    requires forall e <- Sections(moves) :: Sensible(e)
    requires StreamsOrdered(Sections(moves), WindowKey(uid, t)) && Feasible(moves) && OneAtATime(moves)
    requires var events := Sections(moves);
             forall i, j | 0 <= i < j < |events| && events[i].Take? && events[j].Take? :: events[i].g <= events[j].g
    ensures Ascending(Seen(Perform(moves), WindowKey(uid, t)))
  {
    hide Perform, Serve, For, Feasible, OneAtATime, Sensible, StreamsOrdered, Frames, SameHands;
    var n, key := Perform(moves), WindowKey(uid, t);
    OneReaderInOrder(Sections(moves), uid, t);
    SectionsServed(moves);
    OneAtATimeKeepsOrder(moves);
    ForJoin(key, n.app, Frames(n.hands));
    var seen, waiting := Seen(n, key), Waiting(n, key);
    assert forall i | 0 <= i < |seen| :: (seen + waiting)[i] == seen[i];
  }

  function SwappedMoves(uid: nat, a: DataMessage, b: DataMessage): seq<Move> {
    [Section(Noted(uid)), Section(Take(0, a)), Section(Noted(uid)), Section(Take(1, b)), Hand(1), Hand(0)]
  }

  lemma Begun()
    ensures Perform([]) == Node(Serve([]), [], []) && Serve([]).dispatched == []
  {
  }

  lemma Noting(n: Node, uid: nat)
    ensures var n' := Move1(n, Section(Noted(uid)));
            n'.o.dispatched == n.o.dispatched && n'.hands == n.hands && n'.app == n.app
  {
  }

  /** The first frame after a dial is released at once, into its reader's hands. */
  lemma Taking(n: Node, uid: nat, g: nat, m: DataMessage)
    requires m.uid == uid && m.tid < MAX_U64
    ensures var n1 := Move1(n, Section(Noted(uid))); var n2 := Move1(n1, Section(Take(g, m)));
            n2.o.dispatched == n.o.dispatched + [m] && n2.hands == n.hands + [Held(g, m)] && n2.app == n.app
  {
    FirstAfterDial(n.o.state, m);
    hide Handle, NoteEstablished;
    assert Batch(g, [m]) == [Held(g, m)];
  }

  /** Both readers have taken their frames. */
  lemma BothTaken(uid: nat, a: DataMessage, b: DataMessage)
    requires a.uid == b.uid == uid && a.tid < MAX_U64 && b.tid < MAX_U64
    ensures var m := SwappedMoves(uid, a, b);
            && Perform(m[..0]).hands == Perform(m[..1]).hands == []
            && Perform(m[..2]).hands == Perform(m[..3]).hands == [Held(0, a)]
            && Perform(m[..4]).hands == [Held(0, a), Held(1, b)]
            && Perform(m[..4]).app == [] && Perform(m[..4]).o.dispatched == [a, b]
  {
    hide Serve, Perform, Move1;
    var m := SwappedMoves(uid, a, b);
    Begun();
    StepAt(m, 0);
    StepAt(m, 1);
    StepAt(m, 2);
    StepAt(m, 3);
    Noting(Perform(m[..0]), uid);
    Taking(Perform(m[..0]), uid, 0, a);
    Noting(Perform(m[..2]), uid);
    Taking(Perform(m[..2]), uid, 1, b);
  }

  lemma StepAt(moves: seq<Move>, i: nat)
    requires i < |moves|
    ensures Perform(moves[..i + 1]) == Move1(Perform(moves[..i]), moves[i])
    ensures moves[..0] == []
  {
    hide Move1;
    assert moves[..i + 1][..i] == moves[..i];
  }

  /** They hand over in the other order. */
  lemma HandedBackwards(n: Node, a: DataMessage, b: DataMessage)
    requires n.hands == [Held(0, a), Held(1, b)] && n.app == []
    ensures var n1 := Move1(n, Hand(1)); var n2 := Move1(n1, Hand(0));
            && Can(n, Hand(1)) && Can(n1, Hand(0))
            && n2.o == n.o && n2.hands == [] && n2.app == [b, a]
  {
    assert First(n.hands, 1) == 1;
    var n1 := Move1(n, Hand(1));
    assert n1.hands == [Held(0, a)] && n1.app == [b];
  }

  /** Two readers at once are not enough even in lock order: the lock releases `a` and then `b`, each to its own
      reader, and the second of them is the first to reach the callbacks. */
  lemma HandsSwap(uid: nat, a: DataMessage, b: DataMessage)
    requires a.uid == b.uid == uid && KeyOf(a) == KeyOf(b) && 1 <= a.tid < b.tid < MAX_U64
    ensures var moves := SwappedMoves(uid, a, b);
            && Feasible(moves) && StreamsOrdered(Sections(moves), KeyOf(a)) && AllOpenInOrder(Sections(moves), KeyOf(a))
            && var n := Perform(moves); n.o.dispatched == [a, b] && n.hands == [] && n.app == [b, a]
  {
    hide KeyOf, Serve, Perform, Move1, Can, StreamsOrdered, AllOpenInOrder;
    var m := SwappedMoves(uid, a, b);
    BothTaken(uid, a, b);
    HandedBackwards(Perform(m[..4]), a, b);
    StepAt(m, 4);
    StepAt(m, 5);
    assert m[..6] == m;
    CanWithout(Perform(m[..0]), Noted(uid), 0);
    CanWithout(Perform(m[..1]), Take(0, a), 0);
    CanWithout(Perform(m[..2]), Noted(uid), 0);
    CanWithout(Perform(m[..3]), Take(1, b), 1);
    SwappedSections(uid, a, b);
    SectionsServed(m);
    SwapOrdered(uid, a, b);
  }

  /** A reader with empty hands may take. */
  lemma CanWithout(n: Node, e: Event, g: nat)
    requires e.Take? ==> e.g == g && forall i | 0 <= i < |n.hands| :: n.hands[i].g != g
    ensures Can(n, Section(e))
  {
  }

  lemma SwappedSections(uid: nat, a: DataMessage, b: DataMessage)
    ensures Sections(SwappedMoves(uid, a, b)) == [Noted(uid), Take(0, a), Noted(uid), Take(1, b)]
  {
    var m := SwappedMoves(uid, a, b);
    assert m[..5][..4] == m[..4] && m[..4][..3] == m[..3] && m[..3][..2] == m[..2] && m[..2][..1] == m[..1];
    NoSections();
    assert Sections(m[..1]) == [Noted(uid)];
    assert Sections(m[..2]) == [Noted(uid), Take(0, a)];
    assert Sections(m[..3]) == [Noted(uid), Take(0, a), Noted(uid)];
    assert Sections(m[..4]) == [Noted(uid), Take(0, a), Noted(uid), Take(1, b)];
    assert Sections(m[..5]) == Sections(m[..4]);
  }

  lemma NoSections()
    ensures Sections([]) == []
  {
  }

  lemma SwapOrdered(uid: nat, a: DataMessage, b: DataMessage)
    requires a.uid == b.uid == uid && KeyOf(a) == KeyOf(b) && 1 <= a.tid < b.tid < MAX_U64
    ensures var events := [Noted(uid), Take(0, a), Noted(uid), Take(1, b)];
            && StreamsOrdered(events, KeyOf(a))
            && (Serve(events).dispatched == [a, b] ==> AllOpenInOrder(events, KeyOf(a)))
  {
    hide Serve, AllOpenInOrder, InStep;
    var events := [Noted(uid), Take(0, a), Noted(uid), Take(1, b)];
    OverlapOrderIff(events, uid, MakeCompositeKey(a.topicName, a.messageType));
    assert [a, b][..1] == [a] && [a][..0] == [];
    assert For(KeyOf(a), [a]) == [a] && For(KeyOf(a), [a, b]) == [a] + [b];
    hide KeyOf, For;
  }
}
