/** The participant and topic registry, cut into shards by a hash of the uid or of the
    composite key, against one flat registry. */
module Registry {
  import opened Keys
  import opened Window
  import opened Receiver

  /** `peer` is what the ordered sets of a topic compare participants by. */
  datatype Participant = Participant(peer: SubscriberKey, lastSeen: real, endpoints: seq<string>)

  /** Callbacks are counted; what they do is not part of the registry. */
  datatype TopicEntry = TopicEntry(
    topicName: string, messageType: string, reliable: bool,
    publishers: set<SubscriberKey>, subscribers: set<SubscriberKey>, callbacks: nat)

  datatype Shard = Shard(participants: map<nat, Participant>, topics: map<string, TopicEntry>)

  /** One registry, not cut up. */
  type Flat = Shard

  datatype Op =
    | Heartbeat(peer: SubscriberKey, endpoints: seq<string>, now: real)
    | Announce(peer: SubscriberKey, topicName: string, messageType: string, isPublisher: bool)
    | Register(topicName: string, messageType: string, reliable: bool, withCallback: bool)
    | Subscribe(topicName: string, messageType: string)
    | UnregisterPublisher(topicName: string, messageType: string)
    | UnregisterSubscriber(topicName: string, messageType: string)
    | Cleanup(expired: Participant -> bool)

  // ------------------------------------------------------------------ one map slot

  function Get<K, V>(m: map<K, V>, k: K): Option<V> { if k in m then Some(m[k]) else None }

  function Alter<K, V>(m: map<K, V>, k: K, v: Option<V>): map<K, V> { if v.Some? then m[k := v.value] else m - {k} }

  function ParticipantAfter(old_: Option<Participant>, peer: SubscriberKey, endpoints: seq<string>,
                            now: real): Participant {
    if old_.Some? then old_.value.(lastSeen := now, endpoints := endpoints) else Participant(peer, now, endpoints)
  }

  /** `topics[key]` creates the entry it does not find. */
  function EntryOf(old_: Option<TopicEntry>, topicName: string, messageType: string): TopicEntry {
    var entry := if old_.Some? then old_.value else TopicEntry("", "", false, {}, {}, 0);
    entry.(topicName := topicName, messageType := messageType)
  }

  predicate IsTopicOp(op: Op) { !op.Heartbeat? && !op.Cleanup? }

  function KeyOf(op: Op): string
    requires IsTopicOp(op)
  {
    MakeCompositeKey(op.topicName, op.messageType)
  }

  /** What a topic operation makes of the entry under its key. */
  function TopicAfter(old_: Option<TopicEntry>, op: Op): Option<TopicEntry>
    requires IsTopicOp(op)
  {
    match op
    case Announce(peer, topicName, messageType, isPublisher) =>
      var entry := EntryOf(old_, topicName, messageType);
      Some(if isPublisher then entry.(publishers := entry.publishers + {peer})
           else entry.(subscribers := entry.subscribers + {peer}))
    case Register(topicName, messageType, reliable, withCallback) =>
      var entry := EntryOf(old_, topicName, messageType);
      Some(entry.(reliable := reliable, callbacks := entry.callbacks + if withCallback then 1 else 0))
    case Subscribe(_, _) =>
      if old_.None? then None else Some(old_.value.(callbacks := old_.value.callbacks + 1))
    case UnregisterPublisher(_, _) =>
      if old_.None? || old_.value.callbacks == 0 then None else old_
    case UnregisterSubscriber(_, _) =>
      if old_.None? || (old_.value.publishers == {} && old_.value.subscribers == {}) then None
      else Some(old_.value.(callbacks := 0))
  }

  // -------------------------------------------------------------------- the cleanup

  function ExpiredIn(participants: map<nat, Participant>, expired: Participant -> bool): set<nat> {
    set uid | uid in participants && expired(participants[uid])
  }

  function Without(peers: set<SubscriberKey>,
                   stale: set<nat>): set<SubscriberKey> { set p | p in peers && p.uid !in stale }

  function Purged(e: TopicEntry, stale: set<nat>): TopicEntry {
    e.(publishers := Without(e.publishers, stale), subscribers := Without(e.subscribers, stale))
  }

  predicate Abandoned(e: TopicEntry) { e.publishers == {} && e.subscribers == {} && e.callbacks == 0 }

  function CleanTopics(topics: map<string, TopicEntry>, stale: set<nat>): map<string, TopicEntry> {
    map key | key in topics && !Abandoned(Purged(topics[key], stale)) :: Purged(topics[key], stale)
  }

  function CleanFlat(f: Flat, stale: set<nat>): Flat {
    Shard(f.participants - stale, CleanTopics(f.topics, stale))
  }

  /** Phases 1 and 2: the stale peers of all shards are purged from each of them. */
  function StaleIn(shards: seq<Shard>, expired: Participant -> bool): set<nat> {
    if shards == [] then {}
    else StaleIn(shards[..|shards| - 1], expired) + ExpiredIn(shards[|shards| - 1].participants, expired)
  }

  function CleanShards(shards: seq<Shard>, expired: Participant -> bool): seq<Shard> {
    var stale := StaleIn(shards, expired);
    seq(|shards|, i requires 0 <= i < |shards| =>
      Shard(shards[i].participants - ExpiredIn(shards[i].participants, expired), CleanTopics(shards[i].topics, stale)))
  }

  // ------------------------------------------------------------------------ routing

  /** The shards of the node with uid `self`. */
  datatype Layout = Layout(workers: nat, hash: string -> nat, self: nat)

  function TopicHome(l: Layout, key: string): (i: nat)
    requires l.workers >= 1
    ensures i < l.workers
  {
    ShardOf(key, l.workers, l.hash)
  }

  function UidHome(l: Layout, uid: nat): (i: nat)
    requires l.workers >= 1
    ensures i < l.workers
  {
    ShardOf(Decimal(uid), l.workers, l.hash)
  }

  /** Loopback: the node's own announcements never enter its registry. */
  predicate Own(self: nat, op: Op) { (op.Heartbeat? || op.Announce?) && op.peer.uid == self }

  function ApplyFlat(self: nat, f: Flat, op: Op): Flat {
    if Own(self, op) then f
    else match op
      case Heartbeat(peer, endpoints, now) =>
        var after := ParticipantAfter(Get(f.participants, peer.uid), peer, endpoints, now);
        f.(participants := f.participants[peer.uid := after])
      case Cleanup(expired) => CleanFlat(f, ExpiredIn(f.participants, expired))
      case _ => f.(topics := Alter(f.topics, KeyOf(op), TopicAfter(Get(f.topics, KeyOf(op)), op)))
  }

  /** Every operation but the cleanup works on one shard alone. */
  function ApplySharded(l: Layout, shards: seq<Shard>, op: Op): (shards': seq<Shard>)
    requires 1 <= l.workers == |shards|
    ensures |shards'| == |shards|
  {
    if op.Cleanup? then CleanShards(shards, op.expired)
    else
      var i := if op.Heartbeat? then UidHome(l, op.peer.uid) else TopicHome(l, KeyOf(op));
      shards[i := ApplyFlat(l.self, shards[i], op)]
  }

  /** Everything lives in its home shard, and a participant under its own uid. */
  predicate Routed(l: Layout, shards: seq<Shard>) {
    && 1 <= l.workers == |shards|
    && (forall i | 0 <= i < |shards| :: forall uid <- shards[i].participants ::
             UidHome(l, uid) == i && shards[i].participants[uid].peer.uid == uid)
    && (forall i | 0 <= i < |shards| :: forall key <- shards[i].topics :: TopicHome(l, key) == i)
  }

  /** The snapshot merge: in index order, an entry already merged stays. */
  function Merge(shards: seq<Shard>): Flat {
    if shards == [] then Shard(map[], map[])
    else
      var rest, last := Merge(shards[..|shards| - 1]), shards[|shards| - 1];
      Shard(last.participants + rest.participants, last.topics + rest.topics)
  }

  /** What no shard but `i` holds is found in the merge exactly as shard `i` has it. */
  lemma {:induction false} MergedTopic(shards: seq<Shard>, i: nat, key: string)
    requires i <= |shards| && forall j | 0 <= j < |shards| && j != i :: key !in shards[j].topics
    ensures Get(Merge(shards).topics, key) == if i < |shards| then Get(shards[i].topics, key) else None
  {
    if shards != [] {
      var init := shards[..|shards| - 1];
      MergedTopic(init, if i < |init| then i else |init|, key);
    }
  }

  lemma {:induction false} MergedParticipant(shards: seq<Shard>, i: nat, uid: nat)
    requires i <= |shards| && forall j | 0 <= j < |shards| && j != i :: uid !in shards[j].participants
    ensures Get(Merge(shards).participants, uid) == if i < |shards| then Get(shards[i].participants, uid) else None
  {
    if shards != [] {
      var init := shards[..|shards| - 1];
      MergedParticipant(init, if i < |init| then i else |init|, uid);
    }
  }

  lemma HomeTopic(l: Layout, shards: seq<Shard>, key: string)
    requires Routed(l, shards)
    ensures Get(Merge(shards).topics, key) == Get(shards[TopicHome(l, key)].topics, key)
  {
    MergedTopic(shards, TopicHome(l, key), key);
  }

  lemma HomeParticipant(l: Layout, shards: seq<Shard>, uid: nat)
    requires Routed(l, shards)
    ensures Get(Merge(shards).participants, uid) == Get(shards[UidHome(l, uid)].participants, uid)
  {
    MergedParticipant(shards, UidHome(l, uid), uid);
  }

  lemma SameMap<K, V>(a: map<K, V>, b: map<K, V>)
    requires forall k :: Get(a, k) == Get(b, k)
    ensures a == b
  {
    forall k ensures (k in a <==> k in b) && (k in a ==> a[k] == b[k]) {
      assert Get(a, k) == Get(b, k);
    }
  }

  lemma {:induction false} StaleMembers(shards: seq<Shard>, expired: Participant -> bool, uid: nat)
    ensures uid in StaleIn(shards, expired)
        <==> exists i :: 0 <= i < |shards| && uid in ExpiredIn(shards[i].participants, expired)
  {
    if shards != [] {
      StaleMembers(shards[..|shards| - 1], expired, uid);
    }
  }

  /** The stale peers of the shards are the stale peers of the merged registry. */
  lemma StaleAgree(l: Layout, shards: seq<Shard>, expired: Participant -> bool)
    requires Routed(l, shards)
    ensures StaleIn(shards, expired) == ExpiredIn(Merge(shards).participants, expired)
  {
    forall uid ensures uid in StaleIn(shards, expired) <==> uid in ExpiredIn(Merge(shards).participants, expired) {
      StaleMembers(shards, expired, uid);
      HomeParticipant(l, shards, uid);
      var home := shards[UidHome(l, uid)].participants;
      assert Get(Merge(shards).participants, uid) == Get(home, uid);
      assert uid in ExpiredIn(home, expired) <==> uid in home && expired(home[uid]);
    }
  }

  // --------------------------------------------------------------------- refinement

  lemma TopicSlotRefines(l: Layout, shards: seq<Shard>, key: string, v: Option<TopicEntry>)
    requires Routed(l, shards)
    ensures var i := TopicHome(l, key);
            var after := shards[i := shards[i].(topics := Alter(shards[i].topics, key, v))];
            && Routed(l, after)
            && Merge(after) == Merge(shards).(topics := Alter(Merge(shards).topics, key, v))
  {
    hide Merge, TopicHome, UidHome;
    var i := TopicHome(l, key);
    var after := shards[i := shards[i].(topics := Alter(shards[i].topics, key, v))];
    var topics := Alter(Merge(shards).topics, key, v);
    assert Routed(l, after);
    forall k ensures Get(Merge(after).topics, k) == Get(topics, k) {
      HomeTopic(l, after, k);
      HomeTopic(l, shards, k);
    }
    SameMap(Merge(after).topics, topics);
    SameParticipants(l, shards, after);
  }

  lemma SameParticipants(l: Layout, shards: seq<Shard>, after: seq<Shard>)
    requires Routed(l, shards) && Routed(l, after)
    requires forall i | 0 <= i < |shards| :: after[i].participants == shards[i].participants
    ensures Merge(after).participants == Merge(shards).participants
  {
    hide Merge;
    forall uid ensures Get(Merge(after).participants, uid) == Get(Merge(shards).participants, uid) {
      HomeParticipant(l, after, uid);
      HomeParticipant(l, shards, uid);
    }
    SameMap(Merge(after).participants, Merge(shards).participants);
  }

  lemma SameTopics(l: Layout, shards: seq<Shard>, after: seq<Shard>)
    requires Routed(l, shards) && Routed(l, after)
    requires forall i | 0 <= i < |shards| :: after[i].topics == shards[i].topics
    ensures Merge(after).topics == Merge(shards).topics
  {
    hide Merge;
    forall key ensures Get(Merge(after).topics, key) == Get(Merge(shards).topics, key) {
      HomeTopic(l, after, key);
      HomeTopic(l, shards, key);
    }
    SameMap(Merge(after).topics, Merge(shards).topics);
  }

  lemma ParticipantSlotRefines(l: Layout, shards: seq<Shard>, uid: nat, p: Participant)
    requires Routed(l, shards) && p.peer.uid == uid
    ensures var i := UidHome(l, uid);
            var after := shards[i := shards[i].(participants := shards[i].participants[uid := p])];
            && Routed(l, after)
            && Merge(after) == Merge(shards).(participants := Merge(shards).participants[uid := p])
  {
    hide Merge, TopicHome, UidHome;
    var i := UidHome(l, uid);
    var after := shards[i := shards[i].(participants := shards[i].participants[uid := p])];
    var participants := Merge(shards).participants[uid := p];
    assert Routed(l, after);
    forall u ensures Get(Merge(after).participants, u) == Get(participants, u) {
      HomeParticipant(l, after, u);
      HomeParticipant(l, shards, u);
    }
    SameMap(Merge(after).participants, participants);
    SameTopics(l, shards, after);
  }

  lemma CleanedParticipants(l: Layout, shards: seq<Shard>, expired: Participant -> bool, after: seq<Shard>)
    requires Routed(l, shards) && Routed(l, after)
    requires forall i | 0 <= i < |shards| ::
               after[i].participants == shards[i].participants - ExpiredIn(shards[i].participants, expired)
    ensures Merge(after).participants == Merge(shards).participants - ExpiredIn(Merge(shards).participants, expired)
  {
    hide Merge, UidHome;
    var participants := Merge(shards).participants - ExpiredIn(Merge(shards).participants, expired);
    forall uid ensures Get(Merge(after).participants, uid) == Get(participants, uid) {
      HomeParticipant(l, after, uid);
      HomeParticipant(l, shards, uid);
    }
    SameMap(Merge(after).participants, participants);
  }

  lemma CleanedTopics(l: Layout, shards: seq<Shard>, stale: set<nat>, after: seq<Shard>)
    requires Routed(l, shards) && Routed(l, after)
    requires forall i | 0 <= i < |shards| :: after[i].topics == CleanTopics(shards[i].topics, stale)
    ensures Merge(after).topics == CleanTopics(Merge(shards).topics, stale)
  {
    hide Merge, TopicHome, Purged, Abandoned;
    var topics := CleanTopics(Merge(shards).topics, stale);
    forall key ensures Get(Merge(after).topics, key) == Get(topics, key) {
      HomeTopic(l, after, key);
      HomeTopic(l, shards, key);
    }
    SameMap(Merge(after).topics, topics);
  }

  lemma CleanupRefines(l: Layout, shards: seq<Shard>, expired: Participant -> bool)
    requires Routed(l, shards)
    ensures Routed(l, CleanShards(shards, expired))
    ensures Merge(CleanShards(shards, expired))
            == CleanFlat(Merge(shards), ExpiredIn(Merge(shards).participants, expired))
  {
    hide Merge, StaleIn, ExpiredIn, Purged, Abandoned;
    var after := CleanShards(shards, expired);
    assert Routed(l, after);
    hide Routed;
    StaleAgree(l, shards, expired);
    CleanedParticipants(l, shards, expired, after);
    CleanedTopics(l, shards, StaleIn(shards, expired), after);
  }

  /** One operation on the shards is that operation on the flat registry. */
  lemma StepRefines(l: Layout, shards: seq<Shard>, op: Op)
    requires Routed(l, shards)
    ensures Routed(l, ApplySharded(l, shards, op))
    ensures Merge(ApplySharded(l, shards, op)) == ApplyFlat(l.self, Merge(shards), op)
  {
    hide Merge, Routed, CleanShards, CleanFlat, TopicAfter, KeyOf, TopicHome, UidHome, StaleIn;
    if op.Cleanup? {
      CleanupRefines(l, shards, op.expired);
    } else if Own(l.self, op) {
      UnchangedShards(l, shards, op);
    } else if op.Heartbeat? {
      var uid := op.peer.uid;
      HomeParticipant(l, shards, uid);
      HeartbeatKeepsUid(l, shards, op);
      ParticipantSlotRefines(l, shards, uid,
        ParticipantAfter(Get(Merge(shards).participants, uid), op.peer, op.endpoints, op.now));
    } else {
      HomeTopic(l, shards, KeyOf(op));
      TopicSlotRefines(l, shards, KeyOf(op), TopicAfter(Get(Merge(shards).topics, KeyOf(op)), op));
    }
  }

  lemma UnchangedShards(l: Layout, shards: seq<Shard>, op: Op)
    requires Routed(l, shards) && Own(l.self, op)
    ensures ApplySharded(l, shards, op) == shards
  {
  }

  lemma HeartbeatKeepsUid(l: Layout, shards: seq<Shard>, op: Op)
    requires Routed(l, shards) && op.Heartbeat?
    ensures ParticipantAfter(Get(Merge(shards).participants, op.peer.uid), op.peer, op.endpoints, op.now).peer.uid
            == op.peer.uid
  {
    HomeParticipant(l, shards, op.peer.uid);
    hide Merge, TopicHome;
  }

  function RunFlat(self: nat, f: Flat, ops: seq<Op>): Flat
    decreases |ops|
  {
    if ops == [] then f else RunFlat(self, ApplyFlat(self, f, ops[0]), ops[1..])
  }

  function RunSharded(l: Layout, shards: seq<Shard>, ops: seq<Op>): (shards': seq<Shard>)
    requires 1 <= l.workers == |shards|
    ensures |shards'| == |shards|
    decreases |ops|
  {
    if ops == [] then shards else RunSharded(l, ApplySharded(l, shards, ops[0]), ops[1..])
  }

  /** Main theorem: for any number of shards and any hash, the sharded registry is the
      flat one: after every run of heartbeats, announcements, local registrations and
      timeout cleanups the merged snapshot is what one flat registry would hold. */
  lemma {:induction false} ShardedRefinesFlat(l: Layout, shards: seq<Shard>, ops: seq<Op>)
    requires Routed(l, shards)
    ensures Routed(l, RunSharded(l, shards, ops))
    ensures Merge(RunSharded(l, shards, ops)) == RunFlat(l.self, Merge(shards), ops)
    decreases |ops|
  {
    hide Merge, ApplyFlat, ApplySharded, Routed;
    if ops != [] {
      StepRefines(l, shards, ops[0]);
      RoutedSize(l, shards);
      ShardedRefinesFlat(l, ApplySharded(l, shards, ops[0]), ops[1..]);
    }
  }

  lemma RoutedSize(l: Layout, shards: seq<Shard>)
    requires Routed(l, shards)
    ensures 1 <= l.workers == |shards|
  {
  }

  /** What the cleanup leaves: no trace of an evicted uid, every other peer where it was,
      and exactly the entries that still have a peer or a callback. */
  lemma CleanupExact(f: Flat, expired: Participant -> bool, key: string, p: SubscriberKey)
    ensures var stale := ExpiredIn(f.participants, expired); var f' := CleanFlat(f, stale);
            && (forall uid :: uid in f'.participants <==> uid in f.participants && !expired(f.participants[uid]))
            && (key in f'.topics ==>
                  && key in f.topics
                  && (p in f'.topics[key].publishers <==> p in f.topics[key].publishers && p.uid !in stale)
                  && (p in f'.topics[key].subscribers <==> p in f.topics[key].subscribers && p.uid !in stale)
                  && f'.topics[key].callbacks == f.topics[key].callbacks)
            && (key in f.topics && key !in f'.topics ==>
                  f.topics[key].callbacks == 0
                  && (p in f.topics[key].publishers || p in f.topics[key].subscribers ==> p.uid in stale))
            && (key in f'.topics ==>
                  f'.topics[key].callbacks > 0 || f'.topics[key].publishers + f'.topics[key].subscribers != {})
  {
    if key in f.topics {
      var e := f.topics[key];
      assert p in e.publishers && p.uid !in ExpiredIn(f.participants, expired)
        ==> p in Without(e.publishers, ExpiredIn(f.participants, expired));
      assert p in e.subscribers && p.uid !in ExpiredIn(f.participants, expired)
        ==> p in Without(e.subscribers, ExpiredIn(f.participants, expired));
    }
  }

  /** Phase 3 erases the receive windows of exactly the evicted publishers. */
  lemma PruneExact(s: RxState, stale: set<nat>, uid: nat, composite: string)
    ensures var key := WindowKey(uid, composite);
            && (key in Prune(s, stale).windows <==> key in s.windows && uid !in stale)
            && (key in Prune(s, stale).windows ==> Prune(s, stale).windows[key] == s.windows[key])
  {
    var key := WindowKey(uid, composite);
    forall other | other in stale ensures StartsWith(key, UidPrefix(other)) <==> uid == other {
      PrefixIdentifiesUid(uid, composite, other);
    }
  }

  /** Every peer a topic lists is a participant, so its silence is noticed. */
  ghost predicate Watched(f: Flat) {
    forall key <- f.topics, p <- f.topics[key].publishers + f.topics[key].subscribers :: p.uid in f.participants
  }

  /** An advertisement carries its sender's heartbeat before its announcement. */
  ghost predicate Heralded(self: nat, f: Flat, ops: seq<Op>)
    decreases |ops|
  {
    ops != [] ==>
      && (ops[0].Announce? ==> ops[0].peer.uid == self || ops[0].peer.uid in f.participants)
      && Heralded(self, ApplyFlat(self, f, ops[0]), ops[1..])
  }

  lemma WatchedStep(self: nat, f: Flat, op: Op)
    requires Watched(f) && (op.Announce? ==> op.peer.uid == self || op.peer.uid in f.participants)
    ensures Watched(ApplyFlat(self, f, op))
  {
    var f' := ApplyFlat(self, f, op);
    forall key, p | key in f'.topics && p in f'.topics[key].publishers + f'.topics[key].subscribers
      ensures p.uid in f'.participants
    {
      assert key in f.topics && p in f.topics[key].publishers + f.topics[key].subscribers ==> p.uid in f.participants;
    }
  }

  /** Over every run the registry watches all peers it lists. */
  lemma {:induction false} WatchedRun(self: nat, f: Flat, ops: seq<Op>)
    requires Watched(f) && Heralded(self, f, ops)
    ensures Watched(RunFlat(self, f, ops))
    decreases |ops|
  {
    hide ApplyFlat, Watched;
    if ops != [] {
      WatchedStep(self, f, ops[0]);
      WatchedRun(self, ApplyFlat(self, f, ops[0]), ops[1..]);
    }
  }

  /** The cleanup is not one step of the running node: a peer that comes back between its
      eviction and the purge is registered again, yet its new announcement is lost. */
  lemma ReturningPeerIsForgotten(self: nat, f: Flat, stale: set<nat>, hello: Op, ad: Op)
    requires hello.Heartbeat? && ad.Announce? && hello.peer == ad.peer && ad.peer.uid in stale && ad.peer.uid != self
    ensures var evicted := f.(participants := f.participants - stale);
            var back := ApplyFlat(self, ApplyFlat(self, evicted, hello), ad);
            var purged := back.(topics := CleanTopics(back.topics, stale));
            && KeyOf(ad) in back.topics
            && ad.peer in back.topics[KeyOf(ad)].publishers + back.topics[KeyOf(ad)].subscribers
            && ad.peer.uid in purged.participants
            && forall key <- purged.topics :: ad.peer !in purged.topics[key].publishers + purged.topics[key].subscribers
  {
    hide KeyOf;
  }

  // --------------------------------------------- the cleanup, phase by phase

  /** The peers a topic lists. */
  datatype Lists = Lists(publishers: set<SubscriberKey>, subscribers: set<SubscriberKey>)

  function ListsOf(f: Flat, key: string): Lists {
    if key in f.topics then Lists(f.topics[key].publishers, f.topics[key].subscribers) else Lists({}, {})
  }

  /** Phase 1 and phase 2 of the cleanup, each on its own. */
  function Evicted(f: Flat, stale: set<nat>): Flat { f.(participants := f.participants - stale) }

  function PurgedTopics(f: Flat, stale: set<nat>): Flat { f.(topics := CleanTopics(f.topics, stale)) }

  /** Takes no peer off a list: everything but a cleanup, and the unregistration of a
      publisher, which drops an entry without callbacks whatever peers it lists. */
  predicate KeepsPeers(op: Op) { !op.Cleanup? && !op.UnregisterPublisher? }

  ghost predicate AllKeepPeers(ops: seq<Op>) { forall op <- ops :: KeepsPeers(op) }

  predicate Announces(self: nat, op: Op, key: string) { op.Announce? && !Own(self, op) && KeyOf(op) == key }

  ghost function Announced(self: nat, ops: seq<Op>, key: string): Lists {
    Lists(set op | op in ops && Announces(self, op, key) && op.isPublisher :: op.peer,
          set op | op in ops && Announces(self, op, key) && !op.isPublisher :: op.peer)
  }

  function Joined(a: Lists, b: Lists): Lists { Lists(a.publishers + b.publishers, a.subscribers + b.subscribers) }

  lemma AnnouncedFirst(self: nat, ops: seq<Op>, key: string)
    requires ops != []
    ensures Announced(self, ops, key) == Joined(Announced(self, [ops[0]], key), Announced(self, ops[1..], key))
  {
    hide KeyOf, Own;
    assert forall op :: op in ops <==> op == ops[0] || op in ops[1..];
  }

  lemma OneOp(self: nat, f: Flat, op: Op, key: string)
    requires KeepsPeers(op)
    ensures ListsOf(ApplyFlat(self, f, op), key) == Joined(ListsOf(f, key), Announced(self, [op], key))
  {
    hide KeyOf;
    assert op in [op];
  }

  /** A run of such operations adds what it announces to every topic. */
  lemma {:induction false} RunLists(self: nat, f: Flat, ops: seq<Op>, key: string)
    requires AllKeepPeers(ops)
    ensures ListsOf(RunFlat(self, f, ops), key) == Joined(ListsOf(f, key), Announced(self, ops, key))
    decreases |ops|
  {
    hide ApplyFlat, ListsOf, Announces;
    if ops != [] {
      OneOp(self, f, ops[0], key);
      RunLists(self, ApplyFlat(self, f, ops[0]), ops[1..], key);
      AnnouncedFirst(self, ops, key);
    }
  }

  lemma PurgeLists(f: Flat, stale: set<nat>, key: string)
    ensures ListsOf(PurgedTopics(f, stale), key)
         == Lists(Without(ListsOf(f, key).publishers, stale), Without(ListsOf(f, key).subscribers, stale))
  {
  }

  lemma {:induction false} RunJoins(self: nat, f: Flat, a: seq<Op>, b: seq<Op>)
    ensures RunFlat(self, f, a + b) == RunFlat(self, RunFlat(self, f, a), b)
    decreases |a|
  {
    hide ApplyFlat;
    if a == [] {
      assert a + b == b;
    } else {
      assert (a + b)[1..] == a[1..] + b;
      RunJoins(self, ApplyFlat(self, f, a[0]), a[1..], b);
    }
  }

  /** They treat the participants alike whatever the topics. */
  lemma {:induction false} ParticipantsAlike(self: nat, f: Flat, g: Flat, ops: seq<Op>)
    requires AllKeepPeers(ops) && f.participants == g.participants
    ensures RunFlat(self, f, ops).participants == RunFlat(self, g, ops).participants
    decreases |ops|
  {
    hide TopicAfter, KeyOf;
    if ops != [] {
      assert KeepsPeers(ops[0]);
      ParticipantsAlike(self, ApplyFlat(self, f, ops[0]), ApplyFlat(self, g, ops[0]), ops[1..]);
    }
  }

  /** `op` announces under `key` a peer that has just been evicted. */
  predicate Returns(self: nat, op: Op, key: string, stale: set<nat>) {
    Announces(self, op, key) && op.peer.uid in stale
  }

  ghost predicate Repeated(self: nat, op: Op, key: string, ops: seq<Op>)
    requires op.Announce?
  {
    exists again <- ops :: Announces(self, again, key) && again.peer == op.peer && again.isPublisher == op.isPublisher
  }

  /** Exactly when the running cleanup agrees with the atomic one on the peers of a topic.
      `early` is what arrives after the eviction and before the purge reaches the topic's
      shard, `late` what arrives after that: every evicted peer that announces itself
      early must announce itself again. The participants agree in any case. */
  lemma RunningCleanupIff(self: nat, f: Flat, stale: set<nat>, early: seq<Op>, late: seq<Op>, key: string)
    requires AllKeepPeers(early) && AllKeepPeers(late)
    ensures var running := RunFlat(self, PurgedTopics(RunFlat(self, Evicted(f, stale), early), stale), late);
            var atomic := RunFlat(self, CleanFlat(f, stale), early + late);
            && running.participants == atomic.participants
            && (ListsOf(running, key) == ListsOf(atomic, key)
                <==> forall op <- early | Returns(self, op, key, stale) :: Repeated(self, op, key, late))
  {
    var mid := RunFlat(self, Evicted(f, stale), early);
    hide RunFlat, ListsOf, PurgedTopics, Announces;
    RunJoins(self, CleanFlat(f, stale), early, late);
    CleanIsBoth(f, stale, mid);
    ParticipantsAlike(self, Evicted(f, stale), CleanFlat(f, stale), early);
    ParticipantsAlike(self, PurgedTopics(mid, stale), RunFlat(self, CleanFlat(f, stale), early), late);
    RunLists(self, Evicted(f, stale), early, key);
    PurgeLists(mid, stale, key);
    RunLists(self, PurgedTopics(mid, stale), late, key);
    PurgeLists(f, stale, key);
    RunLists(self, CleanFlat(f, stale), early, key);
    RunLists(self, RunFlat(self, CleanFlat(f, stale), early), late, key);
    var listed, a, b := ListsOf(f, key), Announced(self, early, key), Announced(self, late, key);
    hide *;
    SetsAgreeIff(listed.publishers, a.publishers, b.publishers, stale);
    SetsAgreeIff(listed.subscribers, a.subscribers, b.subscribers, stale);
    ReturnsRepeated(self, early, late, key, stale);
  }

  lemma CleanIsBoth(f: Flat, stale: set<nat>, mid: Flat)
    ensures CleanFlat(f, stale).participants == Evicted(f, stale).participants
    ensures PurgedTopics(mid, stale).participants == mid.participants
    ensures forall key :: ListsOf(Evicted(f, stale), key) == ListsOf(f, key)
    ensures forall key :: ListsOf(CleanFlat(f, stale), key) == ListsOf(PurgedTopics(f, stale), key)
  {
    hide CleanTopics;
  }

  lemma SetsAgreeIff(listed: set<SubscriberKey>, a: set<SubscriberKey>, b: set<SubscriberKey>, stale: set<nat>)
    ensures Without(listed + a, stale) + b == Without(listed, stale) + a + b
          <==> forall p <- a | p.uid in stale :: p in b
  {
    if forall p <- a | p.uid in stale :: p in b {
      assert Without(listed + a, stale) + b == Without(listed, stale) + a + b;
    } else {
      var p :| p in a && p.uid in stale && p !in b;
      assert p in Without(listed, stale) + a + b && p !in Without(listed + a, stale) + b;
    }
  }

  lemma ReturnsRepeated(self: nat, early: seq<Op>, late: seq<Op>, key: string, stale: set<nat>)
    ensures var a, b := Announced(self, early, key), Announced(self, late, key);
            (forall op <- early | Returns(self, op, key, stale) :: Repeated(self, op, key, late))
            <==> (forall p <- a.publishers | p.uid in stale :: p in b.publishers)
                 && (forall p <- a.subscribers | p.uid in stale :: p in b.subscribers)
  {
    hide KeyOf, Own;
    var a, b := Announced(self, early, key), Announced(self, late, key);
    forall op | op in early && Returns(self, op, key, stale)
      ensures Repeated(self, op, key, late) <==>
              if op.isPublisher then op.peer in b.publishers else op.peer in b.subscribers
      ensures if op.isPublisher then op.peer in a.publishers else op.peer in a.subscribers
    {
    }
  }

  ghost predicate SameLists(f: Flat, g: Flat) { forall key: string :: ListsOf(f, key) == ListsOf(g, key) }

  ghost predicate NobodyReturns(self: nat, ops: seq<Op>, stale: set<nat>) {
    forall op <- ops | op.Announce? && !Own(self, op) :: op.peer.uid !in stale
  }

  /** With nothing after the purge: all topics list the same peers as after an atomic
      cleanup if and only if no evicted peer announced anything in between. */
  lemma RunningCleanupAgreesIff(self: nat, f: Flat, stale: set<nat>, ops: seq<Op>)
    requires AllKeepPeers(ops)
    ensures SameLists(PurgedTopics(RunFlat(self, Evicted(f, stale), ops), stale),
                      RunFlat(self, CleanFlat(f, stale), ops))
        <==> NobodyReturns(self, ops, stale)
  {
    hide RunFlat, Evicted, CleanFlat, PurgedTopics, ListsOf, KeyOf, Own;
    var running := PurgedTopics(RunFlat(self, Evicted(f, stale), ops), stale);
    var atomic := RunFlat(self, CleanFlat(f, stale), ops);
    NothingLater(self, running);
    assert ops + [] == ops;
    forall key: string
      ensures ListsOf(running, key) == ListsOf(atomic, key) <==> forall op <- ops :: !Returns(self, op, key, stale)
    {
      RunningCleanupIff(self, f, stale, ops, [], key);
      assert forall op <- ops | Returns(self, op, key, stale) :: !Repeated(self, op, key, []);
    }
    if NobodyReturns(self, ops, stale) {
      forall key: string ensures ListsOf(running, key) == ListsOf(atomic, key) {
        assert forall op <- ops :: !Returns(self, op, key, stale);
      }
    } else {
      var op :| op in ops && op.Announce? && !Own(self, op) && op.peer.uid in stale;
      var key := KeyOf(op);
      assert Returns(self, op, key, stale);
      assert ListsOf(running, key) != ListsOf(atomic, key);
    }
  }

  lemma NothingLater(self: nat, f: Flat)
    ensures RunFlat(self, f, []) == f
  {
  }

  // ------------------------------------------- local operations beside the purge

  function CleanSlot(v: Option<TopicEntry>, stale: set<nat>): Option<TopicEntry> {
    if v.Some? && !Abandoned(Purged(v.value, stale)) then Some(Purged(v.value, stale)) else None
  }

  /** The entry outlives the purge. */
  predicate Survives(v: Option<TopicEntry>, stale: set<nat>) { v.Some? && !Abandoned(Purged(v.value, stale)) }

  /** Which operations on a topic do not care whether the purge runs before or after them:
      unregistering never does; a registration must bring a callback or find an entry
      that survives; a further callback must not find an entry about to go; and an
      announcement must not be an evicted peer's, nor find a reliable entry about to go. */
  predicate Commutes(op: Op, old_: Option<TopicEntry>, stale: set<nat>)
    requires IsTopicOp(op)
  {
    match op
    case Announce(peer, _, _, _) =>
      peer.uid !in stale && (old_.Some? && !Survives(old_, stale) ==> !old_.value.reliable)
    case Register(_, _, _, withCallback) => withCallback || Survives(old_, stale)
    case Subscribe(_, _) => old_.None? || Survives(old_, stale)
    case UnregisterPublisher(_, _) => true
    case UnregisterSubscriber(_, _) => true
  }

  lemma SlotCommutesIff(op: Op, old_: Option<TopicEntry>, stale: set<nat>)
    requires IsTopicOp(op)
    ensures CleanSlot(TopicAfter(old_, op), stale) == TopicAfter(CleanSlot(old_, stale), op)
          <==> Commutes(op, old_, stale)
  {
    if op.Announce? {
      AnnounceCommutesIff(op, old_, stale);
    } else {
      WithoutNone(stale);
    }
  }

  lemma AnnounceCommutesIff(op: Op, old_: Option<TopicEntry>, stale: set<nat>)
    requires op.Announce?
    ensures CleanSlot(TopicAfter(old_, op), stale) == TopicAfter(CleanSlot(old_, stale), op)
          <==> Commutes(op, old_, stale)
  {
    var entry := EntryOf(old_, op.topicName, op.messageType);
    WithoutNone(stale);
    WithoutMore(entry.publishers, op.peer, stale);
    WithoutMore(entry.subscribers, op.peer, stale);
    var after, before := CleanSlot(TopicAfter(old_, op), stale), TopicAfter(CleanSlot(old_, stale), op);
    hide Without;
    assert op.peer in (if op.isPublisher then before.value.publishers else before.value.subscribers);
    if op.peer.uid in stale {
      if after.Some? {
        assert op.peer !in (if op.isPublisher then after.value.publishers else after.value.subscribers);
      }
    } else {
      assert after.Some? && after.value.reliable == entry.reliable;
      if !Survives(old_, stale) {
        assert !before.value.reliable && before.value.callbacks == 0;
        assert {} + {op.peer} == {op.peer};
      }
    }
  }

  lemma WithoutMore(peers: set<SubscriberKey>, p: SubscriberKey, stale: set<nat>)
    ensures Without(peers + {p}, stale) == if p.uid in stale then Without(peers, stale) else Without(peers, stale) + {p}
    ensures p.uid in stale ==> p !in Without(peers + {p}, stale)
  {
  }

  lemma WithoutNone(stale: set<nat>)
    ensures Without({}, stale) == {}
  {
  }

  lemma PurgeSlot(topics: map<string, TopicEntry>, key: string, v: Option<TopicEntry>, stale: set<nat>)
    ensures CleanTopics(Alter(topics, key, v), stale) == Alter(CleanTopics(topics, stale), key, CleanSlot(v, stale))
    ensures Get(CleanTopics(topics, stale), key) == CleanSlot(Get(topics, key), stale)
  {
    hide Purged, Abandoned;
  }

  lemma AlterInjective<K, V>(m: map<K, V>, k: K, v: Option<V>, w: Option<V>)
    ensures Alter(m, k, v) == Alter(m, k, w) <==> v == w
  {
    assert Get(Alter(m, k, v), k) == v && Get(Alter(m, k, w), k) == w;
  }

  /** Exactly which topic operations commute with the purge. */
  lemma PurgeCommutesIff(self: nat, f: Flat, op: Op, stale: set<nat>)
    requires IsTopicOp(op) && !Own(self, op)
    ensures PurgedTopics(ApplyFlat(self, f, op), stale) == ApplyFlat(self, PurgedTopics(f, stale), op)
        <==> Commutes(op, Get(f.topics, KeyOf(op)), stale)
  {
    hide CleanTopics, CleanSlot, TopicAfter, KeyOf, Commutes, Alter;
    var key := KeyOf(op);
    var old_ := Get(f.topics, key);
    PurgeSlot(f.topics, key, TopicAfter(old_, op), stale);
    AlterInjective(CleanTopics(f.topics, stale), key,
      CleanSlot(TopicAfter(old_, op), stale), TopicAfter(CleanSlot(old_, stale), op));
    SlotCommutesIff(op, old_, stale);
  }

  // ----------------------------------------------------------------------- in place

  /** Phase 1 on one shard. */
  method Evict(participants: map<nat, Participant>, expired: Participant -> bool)
    returns (kept: map<nat, Participant>, stale: seq<Participant>)
    requires forall uid <- participants :: participants[uid].peer.uid == uid
    ensures kept == participants - ExpiredIn(participants, expired)
    ensures Uids(stale) == ExpiredIn(participants, expired)
  {
    kept, stale := participants, [];
    var todo := participants.Keys;
    ghost var done := {};
    while todo != {}
      invariant todo + done == participants.Keys && todo !! done
      invariant kept == participants - (ExpiredIn(participants, expired) * done)
      invariant Uids(stale) == ExpiredIn(participants, expired) * done
      decreases todo
    {
      var uid :| uid in todo;
      if expired(participants[uid]) {
        UidsMore(stale, participants[uid]);
        stale := stale + [participants[uid]];
        kept := kept - {uid};
      }
      todo, done := todo - {uid}, done + {uid};
    }
  }

  function Uids(stale: seq<Participant>): set<nat> { set p | p in stale :: p.peer.uid }

  lemma UidsMore(stale: seq<Participant>, p: Participant)
    ensures Uids(stale + [p]) == Uids(stale) + {p.peer.uid}
  {
    assert p in stale + [p];
    assert forall q <- stale :: q in stale + [p];
  }

  lemma UidsConcat(a: seq<Participant>, b: seq<Participant>)
    ensures Uids(a + b) == Uids(a) + Uids(b)
  {
    assert forall q | q in a || q in b :: q in a + b;
  }

  method IsStale(stale: seq<Participant>, peer: SubscriberKey) returns (yes: bool)
    ensures yes == (peer.uid in Uids(stale))
  {
    for i := 0 to |stale|
      invariant peer.uid !in Uids(stale[..i])
    {
      if stale[i].peer.uid == peer.uid {
        return true;
      }
      UidsMore(stale[..i], stale[i]);
      assert stale[..i + 1] == stale[..i] + [stale[i]];
    }
    assert stale[..|stale|] == stale;
    return false;
  }

  method Purge(peers: set<SubscriberKey>, stale: seq<Participant>) returns (kept: set<SubscriberKey>)
    ensures kept == Without(peers, Uids(stale))
  {
    kept := peers;
    var todo := peers;
    while todo != {}
      invariant todo <= peers && kept == Without(peers - todo, Uids(stale)) + todo
      decreases todo
    {
      var p :| p in todo;
      var gone := IsStale(stale, p);
      if gone {
        kept := kept - {p};
      }
      todo := todo - {p};
    }
  }

  lemma CleanEntry(topics: map<string, TopicEntry>, stale: set<nat>, key: string)
    ensures Get(CleanTopics(topics, stale), key)
         == if key in topics && !Abandoned(Purged(topics[key], stale)) then Some(Purged(topics[key], stale)) else None
  {
  }

  /** Phase 2 on one shard. */
  method PurgeTopics(topics: map<string, TopicEntry>, stale: seq<Participant>) returns (kept: map<string, TopicEntry>)
    ensures kept == CleanTopics(topics, Uids(stale))
  {
    kept := topics;
    var todo := topics.Keys;
    ghost var cleaned := CleanTopics(topics, Uids(stale));
    hide Without, Uids, CleanTopics;
    forall key: string | key !in topics ensures Get(cleaned, key) == None {
      CleanEntry(topics, Uids(stale), key);
    }
    while todo != {}
      invariant todo <= topics.Keys
      invariant forall key: string :: Get(kept, key) == if key in todo then Get(topics, key) else Get(cleaned, key)
      decreases todo
    {
      var key :| key in todo;
      CleanEntry(topics, Uids(stale), key);
      var e := topics[key];
      var publishers := Purge(e.publishers, stale);
      var subscribers := Purge(e.subscribers, stale);
      if publishers == {} && subscribers == {} && e.callbacks == 0 {
        kept := kept - {key};
      } else {
        kept := kept[key := e.(publishers := publishers, subscribers := subscribers)];
      }
      todo := todo - {key};
    }
    SameMap(kept, cleaned);
  }

  /** The shards of a node, and the reliable receiver whose windows follow the peers. */
  class ShardedRegistry {
    const layout: Layout
    const receiver: ReliableReceiver
    var shards: seq<Shard>
    var reliableSubscribed: set<string>  // keys of the reliable subscriptions

    ghost predicate Valid()
      reads this
    {
      Routed(layout, shards)
    }

    constructor (layout: Layout, receiver: ReliableReceiver)
      requires layout.workers >= 1
      ensures Valid() && this.layout == layout && this.receiver == receiver
              && Merge(shards) == Shard(map[], map[]) && reliableSubscribed == {}
    {
      this.layout, this.receiver := layout, receiver;
      shards, reliableSubscribed := seq(layout.workers, _ => Shard(map[], map[])), {};
      new;
      NothingMerged(shards);
    }

    method HandleParticipantHeartbeat(peer: SubscriberKey, endpoints: seq<string>, now: real)
      requires Valid()
      modifies this`shards
      ensures Valid() && shards == ApplySharded(layout, old(shards), Heartbeat(peer, endpoints, now))
    {
      hide Merge, TopicHome, UidHome, Routed;
      RoutedSize(layout, shards);
      StepRefines(layout, shards, Heartbeat(peer, endpoints, now));
      if peer.uid == layout.self {
        return;
      }
      var i := UidHome(layout, peer.uid);
      var participants := shards[i].participants;
      if peer.uid !in participants {
        participants := participants[peer.uid := Participant(peer, now, endpoints)];
      } else {
        participants := participants[peer.uid := participants[peer.uid].(lastSeen := now, endpoints := endpoints)];
      }
      shards := shards[i := shards[i].(participants := participants)];
    }

    method HandleTopicAnnouncement(peer: SubscriberKey, topicName: string, messageType: string, isPublisher: bool)
      requires Valid()
      modifies this`shards
      ensures Valid()
              && shards == ApplySharded(layout, old(shards), Announce(peer, topicName, messageType, isPublisher))
    {
      hide Merge, TopicHome, UidHome, Routed, ApplySharded, MakeCompositeKey, TopicAfter;
      ghost var op := Announce(peer, topicName, messageType, isPublisher);
      RoutedSize(layout, shards);
      StepRefines(layout, shards, op);
      if peer.uid == layout.self {
        UnchangedShards(layout, shards, op);
        return;
      }
      AnnounceIs(layout, shards, op);
      var key := MakeCompositeKey(topicName, messageType);
      var i := TopicHome(layout, key);
      var topics := shards[i].topics;
      if key !in topics {
        topics := topics[key := TopicEntry("", "", false, {}, {}, 0)];
      }
      var entry := topics[key].(topicName := topicName, messageType := messageType);
      if isPublisher {
        entry := entry.(publishers := entry.publishers + {peer});
      } else {
        entry := entry.(subscribers := entry.subscribers + {peer});
      }
      assert topics[key := entry] == shards[i].topics[key := entry];
      shards := shards[i := shards[i].(topics := topics[key := entry])];
    }

    method RegisterTopic(topicName: string, messageType: string, reliable: bool, withCallback: bool)
      requires Valid()
      modifies this`shards
      ensures Valid()
              && shards == ApplySharded(layout, old(shards), Register(topicName, messageType, reliable, withCallback))
    {
      hide Merge, TopicHome, UidHome, Routed, ApplySharded, MakeCompositeKey;
      ghost var op := Register(topicName, messageType, reliable, withCallback);
      RoutedSize(layout, shards);
      StepRefines(layout, shards, op);
      TopicOpIs(layout, shards, op);
      var key := MakeCompositeKey(topicName, messageType);
      var i := TopicHome(layout, key);
      var topics := shards[i].topics;
      if key !in topics {
        topics := topics[key := TopicEntry("", "", false, {}, {}, 0)];
      }
      var entry := topics[key].(topicName := topicName, messageType := messageType, reliable := reliable);
      if withCallback {
        entry := entry.(callbacks := entry.callbacks + 1);
      }
      assert topics[key := entry] == shards[i].topics[key := entry];
      shards := shards[i := shards[i].(topics := topics[key := entry])];
    }

    method RegisterSubscriberTopic(topicName: string, messageType: string, reliable: bool, withCallback: bool)
      requires Valid()
      modifies this
      ensures Valid()
              && shards == ApplySharded(layout, old(shards), Register(topicName, messageType, reliable, withCallback))
      ensures reliableSubscribed
              == old(reliableSubscribed) + if reliable then {MakeCompositeKey(topicName, messageType)} else {}
    {
      RegisterTopic(topicName, messageType, reliable, withCallback);
      if reliable {
        reliableSubscribed := reliableSubscribed + {MakeCompositeKey(topicName, messageType)};
      }
    }

    method SubscribeTopic(topicName: string, messageType: string) returns (found: bool)
      requires Valid()
      modifies this`shards
      ensures Valid() && shards == ApplySharded(layout, old(shards), Subscribe(topicName, messageType))
      ensures found == (MakeCompositeKey(topicName, messageType) in Merge(old(shards)).topics)
    {
      hide Merge, TopicHome, UidHome, Routed, ApplySharded, MakeCompositeKey;
      ghost var op := Subscribe(topicName, messageType);
      RoutedSize(layout, shards);
      StepRefines(layout, shards, op);
      TopicOpIs(layout, shards, op);
      var key := MakeCompositeKey(topicName, messageType);
      HomeTopic(layout, shards, key);
      var i := TopicHome(layout, key);
      if key !in shards[i].topics {
        Untouched(shards, i, key);
        return false;
      }
      var entry := shards[i].topics[key];
      shards := shards[i := shards[i].(topics := shards[i].topics[key := entry.(callbacks := entry.callbacks + 1)])];
      return true;
    }

    method UnregisterPublisherTopic(topicName: string, messageType: string) returns (found: bool)
      requires Valid()
      modifies this`shards
      ensures Valid() && shards == ApplySharded(layout, old(shards), UnregisterPublisher(topicName, messageType))
      ensures found == (MakeCompositeKey(topicName, messageType) in Merge(old(shards)).topics)
    {
      hide Merge, TopicHome, UidHome, Routed, ApplySharded, MakeCompositeKey;
      ghost var op := UnregisterPublisher(topicName, messageType);
      RoutedSize(layout, shards);
      StepRefines(layout, shards, op);
      TopicOpIs(layout, shards, op);
      var key := MakeCompositeKey(topicName, messageType);
      HomeTopic(layout, shards, key);
      var i := TopicHome(layout, key);
      Untouched(shards, i, key);
      if key !in shards[i].topics {
        return false;
      }
      if shards[i].topics[key].callbacks == 0 {
        shards := shards[i := shards[i].(topics := shards[i].topics - {key})];
      }
      return true;
    }

    method UnregisterSubscriberTopic(topicName: string, messageType: string) returns (found: bool)
      requires Valid()
      modifies this
      ensures Valid() && shards == ApplySharded(layout, old(shards), UnregisterSubscriber(topicName, messageType))
      ensures found == (MakeCompositeKey(topicName, messageType) in Merge(old(shards)).topics)
      ensures reliableSubscribed
              == old(reliableSubscribed) - if found then {MakeCompositeKey(topicName, messageType)} else {}
    {
      hide Merge, TopicHome, UidHome, Routed, ApplySharded, MakeCompositeKey;
      ghost var op := UnregisterSubscriber(topicName, messageType);
      RoutedSize(layout, shards);
      StepRefines(layout, shards, op);
      TopicOpIs(layout, shards, op);
      var key := MakeCompositeKey(topicName, messageType);
      HomeTopic(layout, shards, key);
      var i := TopicHome(layout, key);
      if key !in shards[i].topics {
        Untouched(shards, i, key);
        return false;
      }
      var entry := shards[i].topics[key].(callbacks := 0);
      if entry.publishers == {} && entry.subscribers == {} {
        shards := shards[i := shards[i].(topics := shards[i].topics - {key})];
      } else {
        shards := shards[i := shards[i].(topics := shards[i].topics[key := entry])];
      }
      reliableSubscribed := reliableSubscribed - {key};
      return true;
    }

    /** Phase 1: evict stale peers, one shard at a time. */
    method EvictAll(expired: Participant -> bool) returns (stale: seq<Participant>)
      requires Valid()
      modifies this`shards
      ensures Uids(stale) == StaleIn(old(shards), expired)
      ensures |shards| == |old(shards)|
              && forall j | 0 <= j < |shards| :: shards[j] == EvictedShard(old(shards)[j], expired)
    {
      hide TopicHome, UidHome, Uids, ExpiredIn;
      stale := [];
      UidsOfNone();
      for i := 0 to |shards|
        invariant |shards| == |old(shards)| && Uids(stale) == StaleIn(old(shards)[..i], expired)
        invariant forall j | 0 <= j < |shards| ::
          shards[j] == if j < i then EvictedShard(old(shards)[j], expired) else old(shards)[j]
      {
        var kept, gone := Evict(shards[i].participants, expired);
        UidsConcat(stale, gone);
        assert old(shards)[..i + 1][..i] == old(shards)[..i];
        stale := stale + gone;
        shards := shards[i := shards[i].(participants := kept)];
      }
      assert old(shards)[..|shards|] == old(shards);
    }

    /** Phase 2: purge them from every topic of every shard. */
    method PurgeAll(stale: seq<Participant>)
      modifies this`shards
      ensures |shards| == |old(shards)|
      ensures forall j | 0 <= j < |shards| ::
              shards[j] == old(shards)[j].(topics := CleanTopics(old(shards)[j].topics, Uids(stale)))
    {
      hide CleanTopics, Uids;
      for i := 0 to |shards|
        invariant |shards| == |old(shards)|
        invariant forall j | 0 <= j < |shards| ::
          shards[j] == if j < i then old(shards)[j].(topics := CleanTopics(old(shards)[j].topics, Uids(stale)))
             else old(shards)[j]
      {
        var kept := PurgeTopics(shards[i].topics, stale);
        shards := shards[i := shards[i].(topics := kept)];
      }
    }

    /** The timeout cleanup; phase 3 erases the receive windows of the stale peers. */
    method RemoveTimedOutParticipants(expired: Participant -> bool)
      requires Valid()
      modifies this`shards, receiver`windows
      ensures Valid() && shards == ApplySharded(layout, old(shards), Cleanup(expired))
      ensures receiver.windows == Prune(old(receiver.State()), StaleIn(old(shards), expired)).windows
    {
      RoutedSize(layout, shards);
      hide Merge, Routed, CleanTopics, Uids, StaleIn, ExpiredIn, Prune;
      StepRefines(layout, shards, Cleanup(expired));
      var stale := EvictAll(expired);
      PurgeAll(stale);
      assert shards == CleanShards(old(shards), expired);
      var uids := seq(|stale|, i requires 0 <= i < |stale| => stale[i].peer.uid);
      UidsAsSet(stale, uids);
      receiver.PruneWindows(uids);
    }

    /** The cold-path snapshot of all topics. */
    method MergeRegistrySnapshot() returns (merged: map<string, TopicEntry>)
      requires Valid()
      ensures merged == Merge(shards).topics
    {
      merged := map[];
      for i := 0 to |shards|
        invariant merged == Merge(shards[..i]).topics
      {
        assert shards[..i + 1][..i] == shards[..i];
        merged := shards[i].topics + merged;
      }
      assert shards[..|shards|] == shards;
    }
  }

  function EvictedShard(s: Shard, expired: Participant -> bool): Shard {
    s.(participants := s.participants - ExpiredIn(s.participants, expired))
  }

  lemma UidsOfNone()
    ensures Uids([]) == {}
  {
  }

  lemma TopicOpIs(l: Layout, shards: seq<Shard>, op: Op)
    requires 1 <= l.workers == |shards| && IsTopicOp(op) && !Own(l.self, op)
    ensures var key := MakeCompositeKey(op.topicName, op.messageType);
            var i := TopicHome(l, key);
            ApplySharded(l, shards, op)
              == var topics := Alter(shards[i].topics, key, TopicAfter(Get(shards[i].topics, key), op));
                 shards[i := shards[i].(topics := topics)]
  {
  }

  lemma Untouched(shards: seq<Shard>, i: nat, key: string)
    requires i < |shards|
    ensures shards[i := shards[i].(topics := Alter(shards[i].topics, key, Get(shards[i].topics, key)))] == shards
  {
    assert Alter(shards[i].topics, key, Get(shards[i].topics, key)) == shards[i].topics;
  }

  lemma AnnounceIs(l: Layout, shards: seq<Shard>, op: Op)
    requires 1 <= l.workers == |shards| && op.Announce? && !Own(l.self, op)
    ensures var key := MakeCompositeKey(op.topicName, op.messageType);
            var i := TopicHome(l, key);
            var e := EntryOf(Get(shards[i].topics, key), op.topicName, op.messageType);
            var e' :=
              if op.isPublisher then e.(publishers := e.publishers + {op.peer})
              else e.(subscribers := e.subscribers + {op.peer});
            ApplySharded(l, shards, op) == shards[i := shards[i].(topics := shards[i].topics[key := e'])]
  {
  }

  lemma UidsAsSet(stale: seq<Participant>, uids: seq<nat>)
    requires |uids| == |stale| && forall i | 0 <= i < |stale| :: uids[i] == stale[i].peer.uid
    ensures (set uid | uid in uids) == Uids(stale)
  {
  }

  lemma {:induction false} NothingMerged(shards: seq<Shard>)
    requires forall i | 0 <= i < |shards| :: shards[i] == Shard(map[], map[])
    ensures Merge(shards) == Shard(map[], map[])
  {
    if shards != [] {
      NothingMerged(shards[..|shards| - 1]);
    }
  }
}
