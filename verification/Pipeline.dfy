/** The sharded receive pipeline: the receiver routes each datagram to one ring, one
    worker per ring pops, decodes and dispatches. */
module Pipeline {
  import opened Keys
  import opened Numbers
  import opened Ring
  import Wire

  // ---------------------------------------------------------------------- routing

  /** What a full decode of a frame body finds. */
  datatype Content =
    | Identifier(uid: nat)
    | DataNames(topic: string, messageType: string)
    | Advertised(topic: string, messageType: string)
    | Unset

  /** `hash` stands for FNV-1a. Of the Protocol Buffers parser, `accepts` says which bodies
      it parses, and `others` what it finds in those that hold no data message. */
  datatype Setup = Setup(
    workers: nat, capacity: nat, hash: string -> nat, accepts: seq<byte> -> bool, others: seq<byte> -> Content)

  /** The full decode of a frame body. */
  function Decode(c: Setup, body: seq<byte>): Option<Content> {
    var names := Wire.FullNames(body);
    if !c.accepts(body) then None
    else if names.None? then Some(c.others(body))
    else Some(DataNames(Wire.Text(names.value.topic), Wire.Text(names.value.messageType)))
  }

  predicate Sound(c: Setup) { 1 <= c.workers && 0 < c.capacity }

  /** The string a frame is routed by after a full decode. */
  function FullRoute(content: Option<Content>): Option<string> {
    if content.None? then None
    else match content.value
      case Identifier(uid) => Some(Decimal(uid))
      case DataNames(topic, messageType) => Some(MakeCompositeKey(topic, messageType))
      case Advertised(topic, messageType) => Some(MakeCompositeKey(topic, messageType))
      case Unset => None
  }

  /** The receiver's route: the fast walk first, the full decode when it gives up. */
  function Route(c: Setup, body: seq<byte>): Option<string> {
    var fast := Wire.TryReadRoutingKey(body);
    if fast.Some? then fast else FullRoute(Decode(c, body))
  }

  function ShardIndex(c: Setup, key: string): (i: nat)
    requires Sound(c)
    ensures i < c.workers
  {
    ShardOf(key, c.workers, c.hash)
  }

  /** The shortcut is faithful: on every canonical frame that the parser accepts the
      receiver routes as the full decode would. */
  lemma RoutingFaithful(c: Setup, m: Wire.Message)
    requires |Wire.EncodeMessage(m)| <= MAX_U64 && c.accepts(Wire.EncodeMessage(m))
    ensures Route(c, Wire.EncodeMessage(m)) == FullRoute(Decode(c, Wire.EncodeMessage(m)))
  {
    Wire.FullNamesOnCanonical(m);
    if m.DataFrame? {
      Wire.RouterOnData(m.data);
    } else {
      Wire.RouterOnOthers(m);
    }
    hide Wire.TryReadRoutingKey, Wire.EncodeMessage, Wire.FullNames;
  }

  /** And so on every plain frame that it accepts. */
  lemma PlainRouting(c: Setup, body: seq<byte>)
    requires c.accepts(body) && Wire.Plain(body)
    ensures Route(c, body) == FullRoute(Decode(c, body))
  {
    hide Wire.TryReadRoutingKey, Wire.FullNames, Wire.Plain;
    if Wire.TryReadRoutingKey(body).Some? {
      Wire.RouterAgreesUnlessRepeated(body);
    }
  }

  const MAGIC: seq<byte> := [0xED, 0x75, 0xE1, 0xED]

  /** The body of a datagram that opens with the magic number. */
  function BodyOf(datagram: seq<byte>): Option<seq<byte>> {
    if |datagram| < 4 || datagram[..4] != MAGIC then None else Some(datagram[4..])
  }

  /** A datagram carries a body exactly if it is these four bytes and the body, which may be
      empty. */
  lemma EnvelopeExact(datagram: seq<byte>, body: seq<byte>)
    ensures BodyOf(datagram) == Some(body) <==> datagram == [0xED, 0x75, 0xE1, 0xED] + body
  {
    if |datagram| >= 4 {
      assert datagram == datagram[..4] + datagram[4..];
    }
    var packed: seq<byte> := [0xED, 0x75, 0xE1, 0xED] + body;
    assert packed[..4] == MAGIC && packed[4..] == body;
  }

  // ---------------------------------------------------------------- state machine

  /** `arrivals` lists the frames that found their ring open, in arrival order; `log`
      the frames dispatched; `holding[i]` is between worker `i`'s pop and its dispatch. */
  datatype State = State(
    rings: seq<Life<seq<byte>>>, holding: seq<Option<seq<byte>>>, log: seq<seq<byte>>, arrivals: seq<seq<byte>>)

  datatype Step = Receive(datagram: seq<byte>) | Take(i: nat) | Dispatch(i: nat) | CloseRing(i: nat)

  function Start(c: Setup): State {
    State(seq(c.workers, _ => Birth()), seq(c.workers, _ => None), [], [])
  }

  predicate Shaped(c: Setup, s: State) { Sound(c) && |s.rings| == |s.holding| == c.workers }

  predicate Enabled(c: Setup, s: State, step: Step)
    requires Shaped(c, s)
  {
    match step
    case Receive(_) => true
    case Take(i) => i < c.workers && s.holding[i].None? && s.rings[i].queue != []
    case Dispatch(i) => i < c.workers && s.holding[i].Some?
    case CloseRing(i) => i < c.workers
  }

  function Next(c: Setup, s: State, step: Step): (s': State)
    requires Shaped(c, s) && Enabled(c, s, step)
    ensures Shaped(c, s')
  {
    match step
    case Receive(datagram) => if BodyOf(datagram).Some? then Accept(c, s, BodyOf(datagram).value) else s
    case Take(i) =>
        s.(holding := s.holding[i := Some(s.rings[i].queue[0])],
           rings := s.rings[i := Do(s.rings[i], c.capacity, Pop)])
    case Dispatch(i) =>
      var frame := s.holding[i].value;
      s.(holding := s.holding[i := None], log := if Decode(c, frame).Some? then s.log + [frame] else s.log)
    case CloseRing(i) => s.(rings := s.rings[i := Do(s.rings[i], c.capacity, Close)])
  }

  function Accept(c: Setup, s: State, body: seq<byte>): State
    requires Shaped(c, s)
  {
    var key := Route(c, body);
    if key.None? then s
    else
      var i := ShardIndex(c, key.value);
      if s.rings[i].closed then s
      else s.(rings := s.rings[i := Do(s.rings[i], c.capacity, Publish(body))], arrivals := s.arrivals + [body])
  }

  predicate Possible(c: Setup, s: State, steps: seq<Step>)
    requires Shaped(c, s)
    decreases |steps|
  {
    steps == [] || (Enabled(c, s, steps[0]) && Possible(c, Next(c, s, steps[0]), steps[1..]))
  }

  function After(c: Setup, s: State, steps: seq<Step>): (s': State)
    requires Shaped(c, s) && Possible(c, s, steps)
    ensures Shaped(c, s')
    decreases |steps|
  {
    if steps == [] then s else After(c, Next(c, s, steps[0]), steps[1..])
  }

  // ------------------------------------------------------------- per-key selection

  predicate Selected(c: Setup, key: string, body: seq<byte>) {
    Route(c, body) == Some(key) && Decode(c, body).Some?
  }

  /** The decodable frames routed by `key`, in order. */
  function Select(c: Setup, key: string, frames: seq<seq<byte>>): seq<seq<byte>>
    decreases |frames|
  {
    if frames == [] then []
    else
      var last := frames[|frames| - 1];
      Select(c, key, frames[..|frames| - 1]) + (if Selected(c, key, last) then [last] else [])
  }

  lemma SelectAppend(c: Setup, key: string, frames: seq<seq<byte>>, f: seq<byte>)
    ensures Select(c, key, frames + [f]) == Select(c, key, frames) + Select(c, key, [f])
    ensures Select(c, key, [f]) == if Selected(c, key, f) then [f] else []
  {
    assert (frames + [f])[..|frames|] == frames && [f][..0] == [];
    assert Select(c, key, []) == [];
    hide Selected;
  }

  lemma {:induction false} SelectConcat(c: Setup, key: string, a: seq<seq<byte>>, b: seq<seq<byte>>)
    ensures Select(c, key, a + b) == Select(c, key, a) + Select(c, key, b)
    decreases |b|
  {
    hide Selected;
    if b == [] {
      assert a + b == a;
    } else {
      var init, last := b[..|b| - 1], b[|b| - 1];
      assert a + b == (a + init) + [last] && b == init + [last];
      SelectConcat(c, key, a, init);
      SelectAppend(c, key, a + init, last);
      SelectAppend(c, key, init, last);
    }
  }

  // -------------------------------------------------------------------- invariant

  function Held(s: State, i: nat): seq<seq<byte>>
    requires i < |s.holding|
  {
    if s.holding[i].Some? then [s.holding[i].value] else []
  }

  /** Frames in worker `i`'s hands or on its ring were routed there. */
  predicate Home(c: Setup, i: nat, body: seq<byte>)
    requires Sound(c)
  {
    Route(c, body).Some? && ShardIndex(c, Route(c, body).value) == i
  }

  ghost predicate ShardOk(c: Setup, s: State, i: nat)
    requires Shaped(c, s) && i < c.workers
  {
    && OrderOk(s.rings[i], c.capacity) && Accounted(s.rings[i])
    && (forall f <- s.rings[i].queue :: Home(c, i, f)) && (forall f <- Held(s, i) :: Home(c, i, f))
  }

  /** What was published under `key` is what arrived under it; what its worker took is
      what was dispatched and what it still holds. */
  ghost predicate KeyOk(c: Setup, s: State, key: string)
    requires Shaped(c, s)
  {
    var i := ShardIndex(c, key);
    && Select(c, key, s.rings[i].published) == Select(c, key, s.arrivals)
    && Select(c, key, s.rings[i].popped) == Select(c, key, s.log) + Select(c, key, Held(s, i))
  }

  ghost predicate Inv(c: Setup, s: State) {
    && Shaped(c, s)
    && (forall i | 0 <= i < c.workers :: ShardOk(c, s, i))
    && (forall key: string :: KeyOk(c, s, key))
  }

  lemma QueueMembers<T>(l: Life<T>, capacity: nat, op: Op<T>, x: T)
    requires 0 < capacity && x in Do(l, capacity, op).queue
    ensures x in l.queue || op == Publish(x)
  {
  }

  /** What a step does to ring `i`: one operation, or nothing. */
  function RingOp(c: Setup, s: State, step: Step, i: nat): Option<Op<seq<byte>>>
    requires Shaped(c, s) && i < c.workers
  {
    match step
    case Receive(datagram) =>
      var body := BodyOf(datagram);
      if body.Some? && Home(c, i, body.value) && !s.rings[i].closed then Some(Publish(body.value)) else None
    case Take(j) => if i == j then Some(Pop) else None
    case Dispatch(_) => None
    case CloseRing(j) => if i == j then Some(Close) else None
  }

  lemma RingMoves(c: Setup, s: State, step: Step, i: nat)
    requires Shaped(c, s) && Enabled(c, s, step) && i < c.workers
    ensures var op := RingOp(c, s, step, i);
            Next(c, s, step).rings[i] == if op.Some? then Do(s.rings[i], c.capacity, op.value) else s.rings[i]
  {
    hide Route, BodyOf, Do, ShardIndex;
  }

  /** A routed frame joins the ring of its key while that is open, and goes nowhere else. */
  lemma ArrivalExact(c: Setup, s: State, body: seq<byte>, key: string)
    requires Shaped(c, s) && Route(c, body) == Some(key)
    ensures var i, s' := ShardIndex(c, key), Next(c, s, Receive([0xED, 0x75, 0xE1, 0xED] + body));
            && (s.rings[i].closed ==> s' == s)
            && (!s.rings[i].closed ==>
                  && s'.arrivals == s.arrivals + [body] && body in s'.rings[i].queue
                  && s'.rings[i].published == s.rings[i].published + [body])
            && s'.holding == s.holding && s'.log == s.log
            && forall j | 0 <= j < c.workers && j != i :: s'.rings[j] == s.rings[j]
  {
    hide Route, BodyOf, ShardIndex;
    EnvelopeExact([0xED, 0x75, 0xE1, 0xED] + body, body);
    var i := ShardIndex(c, key);
    if !s.rings[i].closed {
      JoinsQueue(s.rings[i], c.capacity, body);
    }
    hide Do;
  }

  lemma JoinsQueue<T>(l: Life<T>, capacity: nat, item: T)
    requires 0 < capacity && !l.closed
    ensures var l' := Do(l, capacity, Publish(item)); item in l'.queue && l'.published == l.published + [item]
  {
  }

  lemma HandsMove(c: Setup, s: State, step: Step, i: nat, f: seq<byte>)
    requires Shaped(c, s) && Enabled(c, s, step) && i < c.workers && f in Held(Next(c, s, step), i)
    ensures f in Held(s, i) || f in s.rings[i].queue
  {
    hide Route, BodyOf, Do, ShardIndex;
  }

  lemma ShardStep(c: Setup, s: State, step: Step, i: nat)
    requires Shaped(c, s) && Enabled(c, s, step) && i < c.workers && ShardOk(c, s, i)
    ensures ShardOk(c, Next(c, s, step), i)
  {
    hide Next, BodyOf, Enabled, Home, Held, OrderOk, Accounted;
    var s', op := Next(c, s, step), RingOp(c, s, step, i);
    RingMoves(c, s, step, i);
    if op.Some? {
      OrderStep(s.rings[i], c.capacity, op.value);
      AccountedStep(s.rings[i], c.capacity, op.value);
    }
    forall f | f in s'.rings[i].queue ensures Home(c, i, f) {
      if op.Some? {
        QueueMembers(s.rings[i], c.capacity, op.value, f);
      }
    }
    forall f | f in Held(s', i) ensures Home(c, i, f) {
      HandsMove(c, s, step, i, f);
    }
  }

  /** A frame routed to another ring adds nothing under `key`. */
  lemma Elsewhere(c: Setup, key: string, j: nat, f: seq<byte>)
    requires Sound(c) && Home(c, j, f) && j != ShardIndex(c, key)
    ensures Select(c, key, [f]) == []
  {
    hide Route, ShardIndex;
    SelectAppend(c, key, [], f);
  }

  lemma PublishLogs<T>(l: Life<T>, capacity: nat, item: T)
    requires 0 < capacity && !l.closed
    ensures var l' := Do(l, capacity, Publish(item)); l'.published == l.published + [item] && l'.popped == l.popped
  {
  }

  lemma ReceiveStep(c: Setup, s: State, body: seq<byte>, key: string)
    requires Shaped(c, s) && KeyOk(c, s, key)
    ensures Shaped(c, Accept(c, s, body)) && KeyOk(c, Accept(c, s, body), key)
  {
    hide Route, ShardIndex, Select, Selected, Do;
    var i := ShardIndex(c, key);
    var s' := Accept(c, s, body);
    if s' != s {
      var j := ShardIndex(c, Route(c, body).value);
      PublishLogs(s.rings[j], c.capacity, body);
      SelectAppend(c, key, s.arrivals, body);
      if j == i {
        SelectAppend(c, key, s.rings[i].published, body);
      } else {
        Elsewhere(c, key, j, body);
        assert Select(c, key, s.arrivals) + [] == Select(c, key, s.arrivals);
      }
    }
  }

  lemma TakeStep(c: Setup, s: State, j: nat, key: string)
    requires Shaped(c, s) && Enabled(c, s, Take(j)) && ShardOk(c, s, j) && KeyOk(c, s, key)
    ensures KeyOk(c, Next(c, s, Take(j)), key)
  {
    hide Route, ShardIndex, Select, Selected, Put, OrderOk, Home;
    SelectAppend(c, key, s.rings[j].popped, s.rings[j].queue[0]);
    NothingSelected(c, key);
    assert Select(c, key, s.log) + [] == Select(c, key, s.log);
  }

  lemma NothingSelected(c: Setup, key: string)
    ensures Select(c, key, []) == []
  {
  }

  lemma DispatchStep(c: Setup, s: State, j: nat, key: string)
    requires Shaped(c, s) && Enabled(c, s, Dispatch(j)) && ShardOk(c, s, j) && KeyOk(c, s, key)
    ensures KeyOk(c, Next(c, s, Dispatch(j)), key)
  {
    hide Route, ShardIndex, Select, OrderOk, Accounted;
    var i, f := ShardIndex(c, key), s.holding[j].value;
    var log := Select(c, key, s.log);
    assert f in Held(s, j);
    SelectAppend(c, key, s.log, f);
    NothingSelected(c, key);
    if j != i {
      Elsewhere(c, key, j, f);
    }
    hide Home, Held, ShardOk;
    DispatchSelects(c, s, j, key);
    assert log + [] == log && (log + Select(c, key, [f])) + [] == log + Select(c, key, [f]);
  }

  lemma DispatchSelects(c: Setup, s: State, j: nat, key: string)
    requires Shaped(c, s) && Enabled(c, s, Dispatch(j))
    ensures Select(c, key, Next(c, s, Dispatch(j)).log) == Select(c, key, s.log) + Select(c, key, [s.holding[j].value])
  {
    hide Route, ShardIndex, Select;
    SelectAppend(c, key, s.log, s.holding[j].value);
    assert Select(c, key, s.log) + [] == Select(c, key, s.log);
  }

  lemma KeyStep(c: Setup, s: State, step: Step, key: string)
    requires Inv(c, s) && Enabled(c, s, step)
    ensures KeyOk(c, Next(c, s, step), key)
  {
    hide ShardOk, KeyOk, Accept, BodyOf;
    assert KeyOk(c, s, key);
    match step
    case Receive(datagram) =>
      if BodyOf(datagram).Some? {
        ReceiveStep(c, s, BodyOf(datagram).value, key);
      }
    case Take(j) => TakeStep(c, s, j, key);
    case Dispatch(j) => DispatchStep(c, s, j, key);
    case CloseRing(j) => CloseStep(c, s, j, key);
  }

  lemma CloseStep(c: Setup, s: State, j: nat, key: string)
    requires Shaped(c, s) && Enabled(c, s, CloseRing(j)) && KeyOk(c, s, key)
    ensures KeyOk(c, Next(c, s, CloseRing(j)), key)
  {
  }

  lemma {:induction false} InvRun(c: Setup, s: State, steps: seq<Step>)
    requires Inv(c, s) && Possible(c, s, steps)
    ensures Inv(c, After(c, s, steps))
    decreases |steps|
  {
    hide Next, Enabled, ShardOk, KeyOk;
    if steps != [] {
      var s' := Next(c, s, steps[0]);
      forall i | 0 <= i < c.workers ensures ShardOk(c, s', i) {
        ShardStep(c, s, steps[0], i);
      }
      forall key: string ensures KeyOk(c, s', key) {
        KeyStep(c, s, steps[0], key);
      }
      InvRun(c, s', steps[1..]);
    }
  }

  lemma StartInv(c: Setup)
    requires Sound(c)
    ensures Inv(c, Start(c))
  {
    forall key: string ensures KeyOk(c, Start(c), key) {
      NothingSelected(c, key);
    }
  }

  /** Main theorem: for any number of workers, hash and schedule, as long as the ring of
      `key` has evicted nothing, the frames dispatched under `key` are a prefix of those
      that arrived under it; once that ring is drained and its worker idle, they are all
      of them (after the close, that is every frame published before it). */
  lemma KeyOrder(c: Setup, steps: seq<Step>, key: string)
    requires Sound(c) && Possible(c, Start(c), steps)
    ensures var s := After(c, Start(c), steps); var i := ShardIndex(c, key);
            s.rings[i].evicted == [] ==>
              && Select(c, key, s.log) <= Select(c, key, s.arrivals)
              && (s.rings[i].queue == [] && s.holding[i].None? ==> Select(c, key, s.log) == Select(c, key, s.arrivals))
  {
    hide Next, Route, ShardIndex, Select, OrderOk, Home, Enabled;
    StartInv(c);
    InvRun(c, Start(c), steps);
    var s := After(c, Start(c), steps);
    hide After, Possible, Start;
    KeptInOrder(c, s, key);
  }

  lemma KeptInOrder(c: Setup, s: State, key: string)
    requires Inv(c, s)
    ensures var i := ShardIndex(c, key);
            s.rings[i].evicted == [] ==>
              && Select(c, key, s.log) <= Select(c, key, s.arrivals)
              && (s.rings[i].queue == [] && s.holding[i].None? ==> Select(c, key, s.log) == Select(c, key, s.arrivals))
  {
    hide Route, ShardIndex, Select, OrderOk, Home;
    var i := ShardIndex(c, key);
    assert KeyOk(c, s, key) && ShardOk(c, s, i);
    if s.rings[i].evicted == [] {
      SelectConcat(c, key, s.rings[i].popped, s.rings[i].queue);
      NothingSelected(c, key);
      var log, held, queue := Select(c, key, s.log), Select(c, key, Held(s, i)), Select(c, key, s.rings[i].queue);
      assert (log + held) + queue == log + (held + queue);
    }
  }

  // ------------------------------------------------------------------- per topic

  /** A plain data frame of the topic, as its subscribers decode it. */
  predicate CarriesTopic(c: Setup, topic: string, messageType: string, body: seq<byte>) {
    Decode(c, body) == Some(DataNames(topic, messageType)) && Wire.Plain(body)
  }

  function OnTopic(c: Setup, topic: string, messageType: string, frames: seq<seq<byte>>): seq<seq<byte>>
    decreases |frames|
  {
    if frames == [] then []
    else
      var last := frames[|frames| - 1];
      OnTopic(c, topic, messageType, frames[..|frames| - 1])
      + (if CarriesTopic(c, topic, messageType, last) then [last] else [])
  }

  lemma TopicIsSelected(c: Setup, topic: string, messageType: string, body: seq<byte>)
    requires CarriesTopic(c, topic, messageType, body)
    ensures Selected(c, MakeCompositeKey(topic, messageType), body)
  {
    PlainRouting(c, body);
    hide Route, Decode, Wire.Plain;
  }

  lemma OnTopicAppend(c: Setup, topic: string, messageType: string, frames: seq<seq<byte>>, f: seq<byte>)
    ensures OnTopic(c, topic, messageType, frames + [f])
         == OnTopic(c, topic, messageType, frames) + if CarriesTopic(c, topic, messageType, f) then [f] else []
  {
    assert (frames + [f])[..|frames|] == frames;
  }

  /** A topic's frames are among those selected by its key. */
  lemma {:induction false} OnTopicOfSelected(c: Setup, topic: string, messageType: string, frames: seq<seq<byte>>)
    ensures var key := MakeCompositeKey(topic, messageType);
            OnTopic(c, topic, messageType, frames) == OnTopic(c, topic, messageType, Select(c, key, frames))
    decreases |frames|
  {
    hide CarriesTopic, Selected, MakeCompositeKey;
    if frames != [] {
      var init, last := frames[..|frames| - 1], frames[|frames| - 1];
      var key := MakeCompositeKey(topic, messageType);
      OnTopicOfSelected(c, topic, messageType, init);
      if CarriesTopic(c, topic, messageType, last) {
        TopicIsSelected(c, topic, messageType, last);
      }
      OnTopicAppend(c, topic, messageType, Select(c, key, init), last);
      assert Select(c, key, init) + [] == Select(c, key, init);
      var sofar := OnTopic(c, topic, messageType, init);
      assert sofar + [] == sofar;
    }
  }

  lemma {:induction false} OnTopicPrefix(c: Setup, topic: string, messageType: string,
                                         a: seq<seq<byte>>, b: seq<seq<byte>>)
    requires a <= b
    ensures OnTopic(c, topic, messageType, a) <= OnTopic(c, topic, messageType, b)
    decreases |b|
  {
    hide CarriesTopic;
    if a != b {
      OnTopicPrefix(c, topic, messageType, a, b[..|b| - 1]);
    }
  }

  /** The same per topic: for any number of workers, hash and schedule, while the topic's
      ring has evicted nothing, its plain frames are dispatched in the order in which
      they arrived, and all of them once the ring is drained and its worker idle. */
  lemma TopicOrder(c: Setup, steps: seq<Step>, topic: string, messageType: string)
    requires Sound(c) && Possible(c, Start(c), steps)
    ensures var s := After(c, Start(c), steps); var i := ShardIndex(c, MakeCompositeKey(topic, messageType));
            s.rings[i].evicted == [] ==>
              var log, arrivals := OnTopic(c, topic, messageType, s.log), OnTopic(c, topic, messageType, s.arrivals);
              log <= arrivals && (s.rings[i].queue == [] && s.holding[i].None? ==> log == arrivals)
  {
    hide Next, Enabled, Route, ShardIndex, Select, Possible, After, OnTopic, MakeCompositeKey;
    var key := MakeCompositeKey(topic, messageType);
    KeyOrder(c, steps, key);
    var s := After(c, Start(c), steps);
    OnTopicOfSelected(c, topic, messageType, s.log);
    OnTopicOfSelected(c, topic, messageType, s.arrivals);
    if s.rings[ShardIndex(c, key)].evicted == [] {
      OnTopicPrefix(c, topic, messageType, Select(c, key, s.log), Select(c, key, s.arrivals));
    }
  }

  // --------------------------------------------------------------- receiver, worker

  /** Frames are owned by the ring they are published to. */
  ghost predicate RingsOk(c: Setup, rings: seq<SpscRing<seq<byte>>>)
    reads rings, set r <- rings :: r.slots
  {
    && Sound(c) && |rings| == c.workers
    && (forall r <- rings :: r.Valid() && r.capacity == c.capacity)
    && (forall i, j | 0 <= i < j < |rings| :: rings[i] != rings[j] && rings[i].slots != rings[j].slots)
  }

  /** `handleReceivedDatagram`: the frame, if any, goes to the ring of its key; every
      other ring stays as it is. */
  method HandleReceivedDatagram(c: Setup, rings: seq<SpscRing<seq<byte>>>, datagram: seq<byte>)
    requires RingsOk(c, rings)
    modifies rings, set r <- rings :: r.slots
    ensures RingsOk(c, rings)
    ensures forall i | 0 <= i < |rings| :: rings[i].closed == old(rings[i].closed)
    ensures forall i | 0 <= i < |rings| ::
              rings[i].queue == if BodyOf(datagram).Some? && Home(c, i, BodyOf(datagram).value) && !rings[i].closed
                                then Put(old(rings[i].queue), c.capacity, BodyOf(datagram).value)
                                else old(rings[i].queue)
  {
    hide Route, FullRoute, Put, At;
    if |datagram| < 4 {
      return;
    }
    if datagram[..4] != MAGIC {
      return;
    }
    var body := datagram[4..];
    var key := Wire.ReadRoutingKey(body);
    if key.None? {
      key := FullRoute(Decode(c, body));
      if key.None? {
        assert Route(c, body).None? by { RouteIs(c, body); }
        return;
      }
    }
    RouteIs(c, body);
    rings[ShardIndex(c, key.value)].Publish(Some(body));
  }

  lemma RouteIs(c: Setup, body: seq<byte>)
    ensures Route(c, body) == var fast := Wire.TryReadRoutingKey(body);
            if fast.Some? then fast else FullRoute(Decode(c, body))
  {
  }

  function Decodable(c: Setup, frames: seq<seq<byte>>): seq<seq<byte>>
    decreases |frames|
  {
    if frames == [] then []
    else (if Decode(c, frames[0]).Some? then [frames[0]] else []) + Decodable(c, frames[1..])
  }

  /** The worker loop from any state of its ring up to where `pop` would wait or return
      nothing: it dispatches the backlog in order, and it ends for good just when the
      ring is closed. What arrives while it waits is the next call's backlog. */
  method WorkerLoop(c: Setup, ring: SpscRing<seq<byte>>) returns (dispatched: seq<seq<byte>>, ended: bool)
    requires ring.Valid()
    modifies ring
    ensures ring.Valid() && ring.queue == [] && dispatched == Decodable(c, old(ring.queue))
    ensures ring.closed == old(ring.closed) && ended == ring.closed
  {
    dispatched := [];
    hide At, Decode;
    while true
      invariant ring.Valid() && ring.closed == old(ring.closed)
      invariant dispatched + Decodable(c, ring.queue) == Decodable(c, old(ring.queue))
      decreases |ring.queue|
    {
      var waiting := ring.Size();
      if waiting == 0 && !ring.closed {
        return dispatched, false;
      }
      var frame := ring.Pop();
      if frame.None? {
        return dispatched, true;
      }
      if Decode(c, frame.value).Some? {
        dispatched := dispatched + [frame.value];
      }
    }
  }
}
