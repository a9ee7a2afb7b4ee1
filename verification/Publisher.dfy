/** The publisher's side of the reliable path: the subscriber table of the gRPC service
    and one send, with its pacing, its tentative tid and its fan-out. */
module Publisher {
  import opened Keys
  import opened Numbers
  import opened Window
  import opened Receiver
  import opened Reactor
  import opened Pacing
  import Registry

  datatype ReliableSendResult = Sent | Backpressured | NoSubscribers | NotServing

  /** The receive buffer's size, which is also the budget of a reliable frame. */
  const MTU_BUDGET: nat := 1500

  /** `pid:tid:uid`, the key of the deliverability report. */
  function ReportKey(k: SubscriberKey): string {
    Decimal(k.pid) + [':'] + (Decimal(k.tid) + [':'] + Decimal(k.uid))
  }

  lemma ReportKeyInjective(a: SubscriberKey, b: SubscriberKey)
    ensures ReportKey(a) == ReportKey(b) <==> a == b
  {
    if ReportKey(a) == ReportKey(b) {
      hide Decimal;
      DecimalHasNoColon(a);
      DecimalHasNoColon(b);
      SplitOnce(Decimal(a.pid), Decimal(a.tid) + [':'] + Decimal(a.uid),
            Decimal(b.pid), Decimal(b.tid) + [':'] + Decimal(b.uid), ':');
      SplitOnce(Decimal(a.tid), Decimal(a.uid), Decimal(b.tid), Decimal(b.uid), ':');
      DecimalInjective(a.pid, b.pid);
      DecimalInjective(a.tid, b.tid);
      DecimalInjective(a.uid, b.uid);
    }
  }

  lemma DecimalHasNoColon(k: SubscriberKey)
    ensures ':' !in Decimal(k.pid) && ':' !in Decimal(k.tid)
  {
  }

  /** What pushing `frame` to `key` answers. */
  function Answer(table: map<SubscriberKey, R<Frame>>, key: SubscriberKey, frame: Frame): OutboxStatus {
    if key in table then EnqueueSection(table[key], frame).status else NotConnected
  }

  /** The table after pushing `frame` to every stream of `keys`. */
  function Pushed(table: map<SubscriberKey, R<Frame>>, keys: set<SubscriberKey>,
                  frame: Frame): map<SubscriberKey, R<Frame>> {
    map k | k in table :: if k in keys then EnqueueCall(table[k], frame) else table[k]
  }

  class ParticipantStreamService {
    var subscribers: map<SubscriberKey, SubscriberReactor<Frame>>

    /** A reactor registers once, under the key of its first heartbeat. */
    ghost predicate Valid()
      reads this
    {
      forall k, l | k in subscribers && l in subscribers && k != l :: subscribers[k] != subscribers[l]
    }

    ghost function Entry(key: SubscriberKey): set<SubscriberReactor<Frame>>
      reads this
    {
      if key in subscribers then {subscribers[key]} else {}
    }

    /** The table as a value: the state of the stream behind each key. */
    ghost function States(): map<SubscriberKey, R<Frame>>
      reads this, subscribers.Values
    {
      map k | k in subscribers :: subscribers[k].State()
    }

    constructor ()
      ensures Valid() && subscribers == map[]
    {
      subscribers := map[];
    }

    /** The newer dial takes the key; a predecessor still in the table stops serving. */
    method RegisterSubscriber(key: SubscriberKey, reactor: SubscriberReactor<Frame>)
      requires Valid() && forall k | k in subscribers && subscribers[k] == reactor :: k == key
      modifies this, Entry(key) - {reactor}
      ensures Valid() && subscribers == old(subscribers)[key := reactor]
      ensures forall old_ <- old(Entry(key)) - {reactor} ::
                old_.State() == Supersede(old(old_.State())) && !IsLive(old_.State())
    {
      if key in subscribers && subscribers[key] != reactor {
        subscribers[key].MarkSuperseded();
      }
      subscribers := subscribers[key := reactor];
    }

    /** Evicts this very reactor, never a successor under its key. */
    method UnregisterSubscriber(key: SubscriberKey, reactor: SubscriberReactor<Frame>)
      requires Valid()
      modifies this
      ensures Valid()
      ensures subscribers == if reactor in old(Entry(key)) then old(subscribers) - {key} else old(subscribers)
    {
      if key in subscribers && subscribers[key] == reactor {
        subscribers := subscribers - {key};
      }
    }

    method PushData(key: SubscriberKey, frame: Frame) returns (status: OutboxStatus)
      requires Valid()
      modifies Entry(key)
      ensures status == Answer(old(States()), key, frame)
      ensures States() == Pushed(old(States()), {key}, frame)
    {
      hide EnqueueSection, EnqueueCall;
      if key !in subscribers {
        return NotConnected;
      }
      status := subscribers[key].Enqueue(frame);
    }

    /** The probe of a gated publisher says exactly whether a push now would be accepted. */
    method IsSendable(key: SubscriberKey) returns (yes: bool)
      ensures forall frame: Frame :: yes == (Answer(States(), key, frame) == Accepted)
    {
      if key !in subscribers {
        return false;
      }
      yes := subscribers[key].Sendable();
    }

    method HasSubscriber(key: SubscriberKey) returns (yes: bool)
      ensures yes == (key in subscribers && IsLive(subscribers[key].State()))
    {
      if key !in subscribers {
        return false;
      }
      yes := subscribers[key].Live();
    }
  }

  /** Some subscriber of `subs` answers `status`. */
  predicate Somebody(table: map<SubscriberKey, R<Frame>>, subs: set<SubscriberKey>, frame: Frame,
                     status: OutboxStatus)
  {
    exists k <- subs :: Answer(table, k, frame) == status
  }

  /** What the fan-out's answers amount to: one acceptance sends the frame, and only
      live subscribers' refusals count against it. */
  function Verdict(table: map<SubscriberKey, R<Frame>>, subs: set<SubscriberKey>, frame: Frame): ReliableSendResult {
    if Somebody(table, subs, frame, Accepted) then Sent
    else if Somebody(table, subs, frame, OutboxStatus.Backpressured) then ReliableSendResult.Backpressured
    else NoSubscribers
  }

  /** The answer of every subscriber, under its report key. */
  predicate Reports(report: map<string, OutboxStatus>, table: map<SubscriberKey, R<Frame>>,
                    subs: set<SubscriberKey>, frame: Frame) {
    && report.Keys == (set k | k in subs :: ReportKey(k))
    && forall k <- subs :: report[ReportKey(k)] == Answer(table, k, frame)
  }

  lemma PushedMore(table: map<SubscriberKey, R<Frame>>, keys: set<SubscriberKey>, key: SubscriberKey, frame: Frame)
    requires key !in keys
    ensures Pushed(Pushed(table, keys, frame), {key}, frame) == Pushed(table, keys + {key}, frame)
    ensures Answer(Pushed(table, keys, frame), key, frame) == Answer(table, key, frame)
  {
    hide EnqueueSection, EnqueueCall;
  }

  lemma SomebodyMore(table: map<SubscriberKey, R<Frame>>, subs: set<SubscriberKey>, key: SubscriberKey,
                     frame: Frame, status: OutboxStatus)
    ensures Somebody(table, subs + {key}, frame, status)
        <==> Somebody(table, subs, frame, status) || Answer(table, key, frame) == status
  {
    hide Answer;
    if k :| k in subs && Answer(table, k, frame) == status {
      assert k in subs + {key};
    } else if Answer(table, key, frame) == status {
      assert key in subs + {key};
    }
  }

  lemma ReportsMore(report: map<string, OutboxStatus>, table: map<SubscriberKey, R<Frame>>,
                    subs: set<SubscriberKey>, key: SubscriberKey, frame: Frame)
    requires Reports(report, table, subs, frame)
    ensures Reports(report[ReportKey(key) := Answer(table, key, frame)], table, subs + {key}, frame)
  {
    hide Answer, ReportKey;
    var report' := report[ReportKey(key) := Answer(table, key, frame)];
    forall k | k in subs + {key}
      ensures ReportKey(k) in report' && report'[ReportKey(k)] == Answer(table, k, frame)
    {
      ReportKeyInjective(k, key);
    }
  }

  /** One push per subscriber, each judged by its own outbox alone. */
  method FanOut(service: ParticipantStreamService, subs: set<SubscriberKey>, frame: Frame)
    returns (report: map<string, OutboxStatus>, acceptedAny: bool, anyLiveBackpressured: bool)
    requires service.Valid()
    modifies set k | k in subs && k in service.subscribers :: service.subscribers[k]
    ensures service.States() == Pushed(old(service.States()), subs, frame)
    ensures Reports(report, old(service.States()), subs, frame)
    ensures acceptedAny == Somebody(old(service.States()), subs, frame, Accepted)
    ensures anyLiveBackpressured == Somebody(old(service.States()), subs, frame, OutboxStatus.Backpressured)
  {
    hide Answer, Pushed, Reports, Somebody;
    report, acceptedAny, anyLiveBackpressured := map[], false, false;
    ghost var before := service.States();
    ghost var done := {};
    var todo := subs;
    NothingPushed(before, frame);
    while todo != {}
      invariant todo <= subs && done == subs - todo
      invariant service.States() == Pushed(before, done, frame)
      invariant Reports(report, before, done, frame)
      invariant acceptedAny == Somebody(before, done, frame, Accepted)
      invariant anyLiveBackpressured == Somebody(before, done, frame, OutboxStatus.Backpressured)
      decreases todo
    {
      var sub :| sub in todo;
      PushedMore(before, done, sub, frame);
      ReportsMore(report, before, done, sub, frame);
      SomebodyMore(before, done, sub, frame, Accepted);
      SomebodyMore(before, done, sub, frame, OutboxStatus.Backpressured);
      todo, done := todo - {sub}, done + {sub};
      var st := service.PushData(sub, frame);
      report := report[ReportKey(sub) := st];
      if st == Accepted {
        acceptedAny := true;
      } else if st == OutboxStatus.Backpressured {
        anyLiveBackpressured := true;
      }
    }
    assert done == subs;
  }

  lemma NothingPushed(table: map<SubscriberKey, R<Frame>>, frame: Frame)
    ensures Pushed(table, {}, frame) == table && Reports(map[], table, {}, frame)
    ensures forall status :: !Somebody(table, {}, frame, status)
  {
  }

  // ------------------------------------------------------------------- one send

  datatype Offer = Refused(result: ReliableSendResult) | Offered(m: DataMessage)

  function SeqIn(seqs: map<string, nat>, topic: string): nat { if topic in seqs then seqs[topic] else 0 }

  /** `reliablePublisherSeq_[topic] + 1` on 64 bits. */
  function NextTid(seqs: map<string, nat>, topic: string): nat { (SeqIn(seqs, topic) + 1) % (MAX_U64 + 1) }

  /** The topic's subscribers in the registry. */
  function SubscribersIn(f: Registry.Flat, topic: string): set<SubscriberKey> {
    if topic in f.topics then f.topics[topic].subscribers else {}
  }

  /** Whom a send is offered to: until something takes peers off the lists, those who were
      listed and the foreign peers that have announced themselves as subscribers since. */
  lemma OfferedTo(l: Registry.Layout, shards: seq<Registry.Shard>, ops: seq<Registry.Op>, topic: string,
                  p: SubscriberKey)
    requires Registry.Routed(l, shards) && Registry.AllKeepPeers(ops)
    ensures 1 <= l.workers == |shards|
    ensures p in SubscribersIn(Registry.Merge(Registry.RunSharded(l, shards, ops)), topic) <==>
            p in SubscribersIn(Registry.Merge(shards), topic)
            || (p.uid != l.self
                && exists op <- ops :: op.Announce? && !op.isPublisher && op.peer == p && Registry.KeyOf(op) == topic)
  {
    hide Registry.Merge, Registry.Routed, Registry.RunSharded, Registry.RunFlat, Registry.KeyOf, Registry.AllKeepPeers;
    Registry.RoutedSize(l, shards);
    Registry.ShardedRefinesFlat(l, shards, ops);
    Registry.RunLists(l.self, Registry.Merge(shards), ops, topic);
  }

  /** What a send offers to its subscribers, unless it is turned down before the fan-out:
      `size` is the serialized length of a message, if it serializes. */
  function OfferOf(serving: bool, passes: bool, subs: set<SubscriberKey>, m: DataMessage,
                   size: DataMessage -> Option<nat>): Offer {
    if !serving then Refused(NotServing)
    else if !passes then Refused(ReliableSendResult.Backpressured)
    else if subs == {} then Refused(NoSubscribers)
    else if size(m).None? || size(m).value > MTU_BUDGET then Refused(NotServing)
    else Offered(m)
  }

  // ---------------------------------------------------- what the answers mean

  /** A stream that takes a frame pushed now, read off its fields. */
  predicate Open<F>(r: R<F>) { !r.finished && !r.cancelled && !r.backpressured && |r.outbox| < r.limits.hwm }

  predicate Gone<F>(r: R<F>) { r.finished || r.cancelled }

  /** The answer of an offered frame: Sent if and only if some listed subscriber has an open
      stream; Backpressured if and only if none has, but some has one that is not gone;
      NoSubscribers if and only if every listed stream is missing or gone. */
  predicate Answers<F>(result: ReliableSendResult, table: map<SubscriberKey, R<F>>, listed: set<SubscriberKey>) {
    && (result == Sent <==> exists k <- listed :: k in table && Open(table[k]))
    && (result == ReliableSendResult.Backpressured <==>
          (forall k <- listed | k in table :: !Open(table[k])) && exists k <- listed :: k in table && !Gone(table[k]))
    && (result == NoSubscribers <==> forall k <- listed | k in table :: Gone(table[k]))
  }

  /** What one push answers. */
  lemma AnswerMeans(table: map<SubscriberKey, R<Frame>>, key: SubscriberKey, frame: Frame)
    ensures Answer(table, key, frame) == Accepted <==> key in table && Open(table[key])
    ensures Answer(table, key, frame) == OutboxStatus.Backpressured <==>
            key in table && !Gone(table[key]) && !Open(table[key])
    ensures Answer(table, key, frame) == NotConnected <==> key !in table || Gone(table[key])
  {
  }

  lemma VerdictAnswers(table: map<SubscriberKey, R<Frame>>, listed: set<SubscriberKey>, frame: Frame)
    ensures Answers(Verdict(table, listed, frame), table, listed)
  {
    hide Answer, Open, Gone;
    forall k ensures (Answer(table, k, frame) == Accepted <==> k in table && Open(table[k]))
                     && (Answer(table, k, frame) == NotConnected <==> k !in table || Gone(table[k]))
    {
      AnswerMeans(table, k, frame);
    }
    OpenIsNotGone(table);
  }

  lemma OpenIsNotGone<F>(table: map<SubscriberKey, R<F>>)
    ensures forall k <- table :: Open(table[k]) ==> !Gone(table[k])
  {
  }

  /** The answer of a send on every path; `tokens` is what the bucket holds after its refill,
      where calls are paced at all. */
  predicate Explained<F>(result: ReliableSendResult, serving: bool, paced: bool, tokens: real,
                         listed: set<SubscriberKey>, size: Option<nat>, table: map<SubscriberKey, R<F>>)
  {
    && (!serving ==> result == NotServing)
    && (serving && paced && tokens < 1.0 ==> result == ReliableSendResult.Backpressured)
    && (serving && !(paced && tokens < 1.0) ==>
          && (listed == {} ==> result == NoSubscribers)
          && (listed != {} && (size.None? || size.value > 1500) ==> result == NotServing)
          && (listed != {} && size.Some? && size.value <= 1500 ==> Answers(result, table, listed)))
  }

  /** Whatever a send is turned down for, or its fan-out answers, the result says so. */
  lemma SendExplained(serving: bool, bucket: Bucket, rate: nat, now: real, listed: set<SubscriberKey>, m: DataMessage,
                      size: DataMessage -> Option<nat>, table: map<SubscriberKey, R<Frame>>)
    ensures var offer := OfferOf(serving, Call(bucket, rate, now).passes, listed, m, size);
            var result := if offer.Refused? then offer.result else Verdict(table, listed, Reliable(m));
            Explained(result, serving, rate > 0, Refilled(bucket, rate, now).tokens, listed, size(m), table)
  {
    hide Verdict, Refilled, Answers;
    VerdictAnswers(table, listed, Reliable(m));
  }

  class ReliablePublisher {
    const uid: nat
    const rateLimit: nat
    var service: ParticipantStreamService?
    var bucket: Bucket
    var seqs: map<string, nat>

    constructor (uid: nat, rateLimit: nat)
      ensures this.uid == uid && this.rateLimit == rateLimit && service == null && bucket == UNUSED && seqs == map[]
    {
      this.uid, this.rateLimit := uid, rateLimit;
      service, bucket, seqs := null, UNUSED, map[];
    }

    /** The pacing block, run on a serving node before anything else. */
    method PassBucket(now: real) returns (passes: bool)
      modifies this`bucket
      ensures Passage(bucket, passes) == Call(old(bucket), rateLimit, now)
    {
      if rateLimit == 0 {
        return true;
      }
      if bucket.lastRefill == 0.0 {
        bucket := Bucket(rateLimit as real, now);
      }
      var refill := Earned(bucket.lastRefill, now, rateLimit);
      if refill >= 1.0 {
        bucket := Bucket(MinReal(bucket.tokens + refill, rateLimit as real), now);
      }
      if bucket.tokens < 1.0 {
        return false;
      }
      bucket := bucket.(tokens := bucket.tokens - 1.0);
      return true;
    }

    ghost function Table(): map<SubscriberKey, R<Frame>>
      reads this, service, if service != null then service.subscribers.Values else {}
    {
      if service == null then map[] else service.States()
    }

    /** The frame a send on this topic would stamp now. */
    ghost function Stamped(topicName: string, messageType: string, payload: seq<byte>): DataMessage
      reads this
    {
      DataMessage(uid, NextTid(seqs, MakeCompositeKey(topicName, messageType)), topicName, messageType, payload)
    }

    /** The snapshot of the topic's subscribers, taken from the topic's shard. */
    static method SubscribersOf(reg: Registry.ShardedRegistry, topic: string) returns (subs: set<SubscriberKey>)
      requires reg.Valid()
      ensures subs == SubscribersIn(Registry.Merge(reg.shards), topic)
    {
      hide Registry.Merge, Registry.TopicHome, Registry.UidHome;
      Registry.HomeTopic(reg.layout, reg.shards, topic);
      var topics := reg.shards[Registry.TopicHome(reg.layout, topic)].topics;
      subs := if topic in topics then topics[topic].subscribers else {};
    }

    /** Everything before the fan-out: service, pacing, subscribers, tid, size. */
    method Prepare(reg: Registry.ShardedRegistry, topicName: string, messageType: string, payload: seq<byte>,
                   now: real, size: DataMessage -> Option<nat>)
      returns (offer: Offer, subs: set<SubscriberKey>)
      requires reg.Valid()
      modifies this`bucket, this`seqs
      ensures bucket == if service == null then old(bucket) else Call(old(bucket), rateLimit, now).bucket
      ensures offer.Offered? ==>
                subs == SubscribersIn(Registry.Merge(reg.shards), MakeCompositeKey(topicName, messageType))
      ensures offer == OfferOf(service != null, Call(old(bucket), rateLimit, now).passes,
                               SubscribersIn(Registry.Merge(reg.shards), MakeCompositeKey(topicName, messageType)),
                               old(Stamped(topicName, messageType, payload)), size)
      ensures SameSeqs(old(seqs), seqs)
    {
      hide Call, MakeCompositeKey, SubscribersIn, Registry.Merge, Registry.Routed;
      subs := {};
      if service == null {
        return Refused(NotServing), subs;
      }
      var passes := PassBucket(now);
      if !passes {
        return Refused(ReliableSendResult.Backpressured), subs;
      }
      var key := MakeCompositeKey(topicName, messageType);
      subs := SubscribersOf(reg, key);
      if subs == {} {
        return Refused(NoSubscribers), subs;
      }
      if key !in seqs {
        seqs := seqs[key := 0];
      }
      var nextSeq := (seqs[key] + 1) % (MAX_U64 + 1);
      var data := DataMessage(uid, nextSeq, topicName, messageType, payload);
      var length := size(data);
      if length.None? || length.value > MTU_BUDGET {
        return Refused(NotServing), subs;
      }
      return Offered(data), subs;
    }

    /** Fan-out and commit. */
    method Deliver(m: DataMessage, key: string, subs: set<SubscriberKey>)
      returns (result: ReliableSendResult, report: map<string, OutboxStatus>)
      requires service != null && service.Valid()
      modifies this`seqs, set k | k in subs && k in service.subscribers :: service.subscribers[k]
      ensures Fanned(old(service.States()), service.States(), subs, m, result, report)
      ensures seqs == if result == Sent then old(seqs)[key := m.tid] else old(seqs)
    {
      hide Pushed, Reports, Somebody;
      var acceptedAny, anyLiveBackpressured;
      report, acceptedAny, anyLiveBackpressured := FanOut(service, subs, Reliable(m));
      if acceptedAny {
        seqs := seqs[key := m.tid];
        return Sent, report;
      }
      if anyLiveBackpressured {
        return ReliableSendResult.Backpressured, report;
      }
      return NoSubscribers, report;
    }

    /** One send, to the subscribers that the registry lists. The tid is committed exactly
        when some subscriber accepted the frame; any other outcome leaves it to the next
        call. */
    method TryPublishReliable(reg: Registry.ShardedRegistry, topicName: string, messageType: string, payload: seq<byte>,
                              now: real, size: DataMessage -> Option<nat>)
      returns (result: ReliableSendResult, report: map<string, OutboxStatus>)
      requires reg.Valid() && (service != null ==> service.Valid())
      modifies this`bucket, this`seqs
      modifies if service == null then {} else
                 set k | k in SubscribersIn(Registry.Merge(reg.shards), MakeCompositeKey(topicName, messageType))
                         && k in service.subscribers :: service.subscribers[k]
      ensures bucket == if service == null then old(bucket) else Call(old(bucket), rateLimit, now).bucket
      ensures var m := old(Stamped(topicName, messageType, payload));
              var topic := MakeCompositeKey(topicName, messageType);
              var subs := SubscribersIn(Registry.Merge(reg.shards), topic);
              match OfferOf(service != null, Call(old(bucket), rateLimit, now).passes, subs, m, size)
              case Refused(why) =>
                result == why && report == map[] && Table() == old(Table()) && SameSeqs(old(seqs), seqs)
              case Offered(_) =>
                && Fanned(old(Table()), Table(), subs, m, result, report)
                && Committed(old(seqs), seqs, topic, m.tid, result)
      ensures Explained(result, service != null, rateLimit > 0, Refilled(old(bucket), rateLimit, now).tokens,
                        SubscribersIn(Registry.Merge(reg.shards), MakeCompositeKey(topicName, messageType)),
                        size(old(Stamped(topicName, messageType, payload))), old(Table()))
    {
      hide Call, Refilled, Explained, Verdict, Reports, Pushed, MakeCompositeKey, OfferOf, SeqIn, SubscribersIn;
      hide Registry.Merge, Registry.Routed;
      report := map[];
      SendExplained(service != null, old(bucket), rateLimit, now,
                    SubscribersIn(Registry.Merge(reg.shards), MakeCompositeKey(topicName, messageType)),
                    old(Stamped(topicName, messageType, payload)), size, old(Table()));
      var offer, subs := Prepare(reg, topicName, messageType, payload, now, size);
      OfferIs(service != null, Call(old(bucket), rateLimit, now).passes,
              SubscribersIn(Registry.Merge(reg.shards), MakeCompositeKey(topicName, messageType)),
              old(Stamped(topicName, messageType, payload)), size);
      if offer.Refused? {
        return offer.result, report;
      }
      var key := MakeCompositeKey(topicName, messageType);
      SameSeqsUpdate(old(seqs), seqs, key, offer.m.tid);
      result, report := Deliver(offer.m, key, subs);
    }
  }

  /** The outcome of a fan-out of `m` from `table` to `table'`. */
  ghost predicate Fanned(table: map<SubscriberKey, R<Frame>>, table': map<SubscriberKey, R<Frame>>,
                         subs: set<SubscriberKey>, m: DataMessage, result: ReliableSendResult,
                         report: map<string, OutboxStatus>) {
    && result == Verdict(table, subs, Reliable(m))
    && Reports(report, table, subs, Reliable(m))
    && table' == Pushed(table, subs, Reliable(m))
  }

  ghost predicate Committed(before: map<string, nat>, after: map<string, nat>, topic: string, tid: nat,
                            result: ReliableSendResult) {
    SameSeqs(if result == Sent then before[topic := tid] else before, after)
  }

  /** A sequence number never written reads as zero. */
  ghost predicate SameSeqs(a: map<string, nat>, b: map<string, nat>) {
    forall t: string :: SeqIn(a, t) == SeqIn(b, t)
  }

  lemma SameSeqsUpdate(a: map<string, nat>, b: map<string, nat>, topic: string, tid: nat)
    requires SameSeqs(a, b)
    ensures SameSeqs(a[topic := tid], b[topic := tid])
  {
    var a', b' := a[topic := tid], b[topic := tid];
    forall t: string ensures SeqIn(a', t) == SeqIn(b', t) {
      assert SeqIn(a, t) == SeqIn(b, t);
    }
  }

  lemma OfferIs(serving: bool, passes: bool, subs: set<SubscriberKey>, m: DataMessage, size: DataMessage -> Option<nat>)
    ensures var offer := OfferOf(serving, passes, subs, m, size);
            offer.Offered? ==> serving && offer.m == m
  {
  }
}
