/** The whole reliable path as one state machine: a publisher with its sequence
    numbers and subscriber streams, and one observed subscriber node (identity `me`)
    that dials, reads and re-dials on a single connection thread. */
module World {
  import opened Keys
  import opened Numbers
  import opened Window
  import opened Receiver
  import opened Reactor
  import P = ReactorProtocol

  /** One dial as the publisher sees it. */
  datatype Stream = Stream(
    key: SubscriberKey,
    sys: P.Sys<Frame>,
    registered: bool,  // registerSubscriber has run for it
    closed: bool)      // OnDone has returned

  /** A tryPublishReliable call inside its fan-out loop. */
  datatype Call = Call(m: DataMessage, todo: seq<SubscriberKey>,
                    report: map<SubscriberKey, OutboxStatus>, acceptedAny: bool)

  datatype W = W(
    uid: nat, me: SubscriberKey, limits: Limits,
    seqs: map<string, nat>,                 // committed sequence number per topic
    call: Option<Call>,                     // sends are serialized: one at a time
    sent: seq<DataMessage>,                 // frames of the calls answered Sent, in order
    streams: seq<Stream>,                   // every dial so far
    table: map<SubscriberKey, nat>,         // subscriber table: key to stream
    rx: RxState,                            // the observed node's windows
    gen: Option<nat>, pos: nat,             // its current stream, and how much of it it read
    readLog: seq<Frame>,                    // frames handed to handleReliableDataFrame
    out: seq<DataMessage>)                  // frames dispatched to the application

  datatype Step =
    | Begin(topicName: string, messageType: string, payload: seq<byte>, subs: seq<SubscriberKey>)
    | PushNext
    | End
    | Dial(key: SubscriberKey, noted: nat)
    | Register(i: nat)
    | Presence(i: nat)
    | React(i: nat, a: P.Action<Frame>)
    | Evict(i: nat)
    | Close(i: nat)
    | Read
    | Cleanup(uids: set<nat>)

  function Start(uid: nat, me: SubscriberKey, limits: Limits): W {
    W(uid, me, limits, map[], None, [], [], map[], RxState(map[], {}), None, 0, [], [])
  }

  function TopicOf(m: DataMessage): string { MakeCompositeKey(m.topicName, m.messageType) }

  function SeqOf(w: W, topic: string): nat { if topic in w.seqs then w.seqs[topic] else 0 }

  /** What a reactor's own threads do; pushes and supersession come from elsewhere. */
  predicate OwnAction(a: P.Action<Frame>) { !a.Push? && !a.SupersedeIt? }

  predicate Enabled(w: W, s: Step) {
    match s
    case Begin(topicName, messageType, _, subs) =>
      // A snapshot of a std::set: no duplicates. The run stays short of tid 2^64-1.
      w.call.None? && NoDup(subs) && SeqOf(w, MakeCompositeKey(topicName, messageType)) + 1 < MAX_U64
    case PushNext => w.call.Some? && w.call.value.todo != []
    case End => w.call.Some? && w.call.value.todo == []
    case Dial(_, _) => true
    case Register(i) => i < |w.streams| && !w.streams[i].registered && !w.streams[i].closed
    case Presence(i) => i < |w.streams| && w.streams[i].registered
    case React(i, a) => i < |w.streams| && OwnAction(a) && P.Enabled(w.streams[i].sys, a)
    case Evict(i) => i < |w.streams| && w.streams[i].sys.r.cancelled
    case Close(i) => i < |w.streams| && w.streams[i].sys.r.finished
    case Read => Readable(w)
    case Cleanup(_) => true
  }

  /** The current stream has written a frame that was not read yet. */
  predicate Readable(w: W) {
    w.gen.Some? && w.gen.value < |w.streams| && w.pos < |w.streams[w.gen.value].sys.r.started|
  }

  function NextFrame(w: W): Frame
    requires Readable(w)
  {
    w.streams[w.gen.value].sys.r.started[w.pos]
  }

  /** The observed node dials: under the publisher's own uid when it found it in the registry,
      under one made up from the endpoint when the endpoint is a static seed. */
  predicate Redials(w: W, s: Step) { s.Dial? && s.key == w.me }

  function Act(w: W, i: nat, a: P.Action<Frame>): seq<Stream>
    requires i < |w.streams| && P.Enabled(w.streams[i].sys, a)
  {
    w.streams[i := w.streams[i].(sys := P.Next(w.streams[i].sys, a))]
  }

  /** pushData: look the key up, then the reactor's enqueue section. */
  function PushStatus(w: W, key: SubscriberKey, m: DataMessage): OutboxStatus {
    if key in w.table && w.table[key] < |w.streams| then
      EnqueueSection(w.streams[w.table[key]].sys.r, Reliable(m)).status
    else NotConnected
  }

  /** unregisterSubscriber's pointer-guarded erase. */
  function Unregister(w: W, i: nat): map<SubscriberKey, nat>
    requires i < |w.streams|
  {
    var key := w.streams[i].key;
    if key in w.table && w.table[key] == i then w.table - {key} else w.table
  }

  function Next(w: W, s: Step): W
    requires Enabled(w, s)
  {
    match s
    case Begin(topicName, messageType, payload, subs) =>
      var tid := SeqOf(w, MakeCompositeKey(topicName, messageType)) + 1;
      w.(call := Some(Call(DataMessage(w.uid, tid, topicName, messageType, payload), subs, map[], false)))
    case PushNext =>
      var c := w.call.value;
      var key := c.todo[0];
      var status := PushStatus(w, key, c.m);
      w.(call := Some(c.(todo := c.todo[1..], report := c.report[key := status],
                            acceptedAny := c.acceptedAny || status == Accepted)),
         streams := if key in w.table && w.table[key] < |w.streams|
                     then Act(w, w.table[key], P.Push(Reliable(c.m)))
                     else w.streams)
    case End =>
      var c := w.call.value;
      if c.acceptedAny then
        w.(call := None, seqs := w.seqs[TopicOf(c.m) := c.m.tid], sent := w.sent + [c.m])
      else w.(call := None)
    case Dial(key, noted) =>
      var w' := w.(streams := w.streams + [Stream(key, P.Init(w.limits), false, false)]);
      if key == w.me then w'.(gen := Some(|w.streams|), pos := 0, rx := NoteEstablished(w.rx, noted)) else w'
    case Register(i) =>
      var key := w.streams[i].key;
      var streams := if key in w.table && w.table[key] < |w.streams| && w.table[key] != i then
                       Act(w, w.table[key], P.SupersedeIt) else w.streams;
      w.(streams := streams[i := streams[i].(registered := true)], table := w.table[key := i])
    case Presence(i) => w.(streams := Act(w, i, P.Push(Frame.Presence)))
    case React(i, a) => w.(streams := Act(w, i, a))
    case Evict(i) => w.(table := Unregister(w, i))
    case Close(i) => w.(table := Unregister(w, i), streams := w.streams[i := w.streams[i].(closed := true)])
    case Read =>
      var o := Handle(w.rx, NextFrame(w));
      w.(pos := w.pos + 1, readLog := w.readLog + [NextFrame(w)], rx := o.state, out := w.out + o.dispatched)
    case Cleanup(uids) => w.(rx := Prune(w.rx, uids))
  }

  ghost predicate Possible(w: W, steps: seq<Step>)
    decreases |steps|
  {
    steps == [] || (Enabled(w, steps[0]) && Possible(Next(w, steps[0]), steps[1..]))
  }

  ghost function After(w: W, steps: seq<Step>): W
    requires Possible(w, steps)
    decreases |steps|
  {
    if steps == [] then w else After(Next(w, steps[0]), steps[1..])
  }

  lemma StepOpens(w: W, s: Step, rest: seq<Step>)
    requires Enabled(w, s) && Possible(Next(w, s), rest)
    ensures Possible(w, [s] + rest) && After(w, [s] + rest) == After(Next(w, s), rest)
  {
    hide Next, Enabled;
    assert ([s] + rest)[1..] == rest;
  }

  lemma OneStep(w: W, s: Step)
    requires Enabled(w, s)
    ensures Possible(w, [s]) && After(w, [s]) == Next(w, s)
  {
    hide Next, Enabled;
    StepOpens(w, s, []);
    assert [s] + [] == [s];
  }

  // ------------------------------------------------- streams and generations

  /** Every stream's own protocol invariant. */
  ghost predicate StreamsOk(w: W) {
    Coherent(w.limits) && forall i | 0 <= i < |w.streams| :: P.Inv(w.streams[i].sys)
  }

  /** A table entry points at a registered stream of its key whose OnDone has not run. */
  predicate EntryOk(w: W, key: SubscriberKey) {
    key in w.table ==>
      && w.table[key] < |w.streams|
      && var s := w.streams[w.table[key]]; s.key == key && s.registered && !s.closed
  }

  /** A registered stream that is still live is the one the table points at; a closed
      one has finished. */
  predicate StreamOk(w: W, i: nat)
    requires i < |w.streams|
  {
    var s := w.streams[i];
    && (s.registered && IsLive(s.sys.r) ==> s.key in w.table && w.table[s.key] == i)
    && (s.closed ==> s.sys.r.finished)
  }

  ghost predicate TableOk(w: W) {
    && (forall key: SubscriberKey :: EntryOk(w, key))
    && (forall i | 0 <= i < |w.streams| :: StreamOk(w, i))
  }

  /** What a step does to stream `i`'s reactor: one protocol action, or nothing. */
  function ActionOn(w: W, s: Step, i: nat): Option<P.Action<Frame>>
    requires Enabled(w, s)
  {
    match s
    case PushNext =>
      var key := w.call.value.todo[0];
      if key in w.table && w.table[key] == i then Some(P.Push(Reliable(w.call.value.m))) else None
    case Register(j) =>
      var key := w.streams[j].key;
      if key in w.table && w.table[key] == i && i != j then Some(P.SupersedeIt) else None
    case Presence(j) => if i == j then Some(P.Push(Frame.Presence)) else None
    case React(j, a) => if i == j then Some(a) else None
    case _ => None
  }

  lemma StreamMoves(w: W, s: Step, i: nat)
    requires Enabled(w, s) && i < |w.streams|
    ensures |w.streams| <= |Next(w, s).streams| && Next(w, s).streams[i].key == w.streams[i].key
    ensures Next(w, s).streams[i].registered == (w.streams[i].registered || s == Register(i))
    ensures Next(w, s).streams[i].closed == (w.streams[i].closed || s == Close(i))
    ensures var a := ActionOn(w, s, i); var sys' := Next(w, s).streams[i].sys;
            if a.None? then sys' == w.streams[i].sys
            else P.Enabled(w.streams[i].sys, a.value) && sys' == P.Next(w.streams[i].sys, a.value)
  {
    hide P.Next;
  }

  /** What a step does to the publisher's call and sequence numbers. */
  lemma CallEffects(w: W, s: Step)
    requires Enabled(w, s)
    ensures var w' := Next(w, s);
            && w'.uid == w.uid && w'.me == w.me && w'.limits == w.limits
            && (!s.End? ==> w'.seqs == w.seqs && w'.sent == w.sent)
            && (!s.Begin? && !s.PushNext? && !s.End? ==> w'.call == w.call)
    ensures s.Begin? ==>
      var topic := MakeCompositeKey(s.topicName, s.messageType);
      Next(w, s).call ==
        Some(Call(DataMessage(w.uid, SeqOf(w, topic) + 1, s.topicName, s.messageType, s.payload), s.subs, map[], false))
    ensures s.PushNext? ==>
      var c := w.call.value;
      var status := PushStatus(w, c.todo[0], c.m);
      Next(w, s).call ==
        Some(Call(c.m, c.todo[1..], c.report[c.todo[0] := status], c.acceptedAny || status == Accepted))
    ensures s.End? ==>
      var c := w.call.value; var w' := Next(w, s);
      && w'.call.None?
      && (c.acceptedAny ==> w'.seqs == w.seqs[TopicOf(c.m) := c.m.tid] && w'.sent == w.sent + [c.m])
      && (!c.acceptedAny ==> w'.seqs == w.seqs && w'.sent == w.sent)
  {
    hide P.Next, Act, Unregister, Handle, NoteEstablished, Prune;
  }

  /** What a step does to the observed subscriber. */
  lemma ClientEffects(w: W, s: Step)
    requires Enabled(w, s)
    ensures var w' := Next(w, s);
            && (!Redials(w, s) ==> w'.gen == w.gen)
            && (!s.Read? ==> w'.readLog == w.readLog && w'.out == w.out)
            && (!Redials(w, s) && !s.Read? ==> w'.pos == w.pos)
            && (!Redials(w, s) && !s.Read? && !s.Cleanup? ==> w'.rx == w.rx)
    ensures Redials(w, s) ==>
      var w' := Next(w, s); w'.gen == Some(|w.streams|) && w'.pos == 0 && w'.rx == NoteEstablished(w.rx, s.noted)
    ensures s.Read? ==>
      var w' := Next(w, s); var o := Handle(w.rx, NextFrame(w));
      && w'.streams == w.streams && w'.pos == w.pos + 1
      && w'.readLog == w.readLog + [NextFrame(w)] && w'.rx == o.state && w'.out == w.out + o.dispatched
    ensures s.Cleanup? ==> Next(w, s).rx == Prune(w.rx, s.uids)
  {
    hide P.Next, Act, Unregister, Handle, NoteEstablished, Prune;
  }

  lemma StreamsStep(w: W, s: Step)
    requires StreamsOk(w) && Enabled(w, s)
    ensures StreamsOk(Next(w, s))
  {
    hide P.Next, P.Inv;
    var w' := Next(w, s);
    forall i | 0 <= i < |w'.streams| ensures P.Inv(w'.streams[i].sys) {
      if i < |w.streams| {
        StreamMoves(w, s, i);
        var a := ActionOn(w, s, i);
        if a.Some? {
          P.InvStep(w.streams[i].sys, a.value);
        }
      } else {
        NewStreamOk(w.limits);
      }
    }
  }

  lemma NewStreamOk(limits: Limits)
    requires Coherent(limits)
    ensures P.Inv(P.Init<Frame>(limits))
  {
  }

  lemma EntryStep(w: W, s: Step, key: SubscriberKey)
    requires Enabled(w, s) && EntryOk(w, key)
    ensures EntryOk(Next(w, s), key)
  {
    hide P.Next;
    if key in w.table {
      StreamMoves(w, s, w.table[key]);
    }
  }

  lemma StreamOkStep(w: W, s: Step, i: nat)
    requires Enabled(w, s) && TableOk(w) && i < |Next(w, s).streams|
    ensures StreamOk(Next(w, s), i)
  {
    hide P.Next;
    if i < |w.streams| {
      StreamMoves(w, s, i);
      LivenessFades(w, s, i);
      assert StreamOk(w, i) && EntryOk(w, w.streams[i].key);
    }
  }

  lemma TableStep(w: W, s: Step)
    requires TableOk(w) && Enabled(w, s)
    ensures TableOk(Next(w, s))
  {
    hide Next, EntryOk, StreamOk;
    forall key: SubscriberKey ensures EntryOk(Next(w, s), key) {
      EntryStep(w, s, key);
    }
    forall i | 0 <= i < |Next(w, s).streams| ensures StreamOk(Next(w, s), i) {
      StreamOkStep(w, s, i);
    }
  }

  lemma LivenessFades(w: W, s: Step, i: nat)
    requires Enabled(w, s) && i < |w.streams|
    ensures var r, r' := w.streams[i].sys.r, Next(w, s).streams[i].sys.r;
            && (IsLive(r') ==> IsLive(r)) && (r.finished ==> r'.finished)
            && (ActionOn(w, s, i) == Some(P.SupersedeIt) ==> !IsLive(r'))
  {
    StreamMoves(w, s, i);
    var a := ActionOn(w, s, i);
    if a.Some? {
      P.KeepsTeardownStep(w.streams[i].sys, a.value);
    }
  }
}
