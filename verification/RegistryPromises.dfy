/** What the registry promises, said of the merged snapshot: what each operation does to a
    topic's entry, that a heartbeat keeps its sender, and that the node never lists itself. */
module RegistryPromises {
  import opened Keys
  import opened Registry

  function CallbacksOf(f: Flat, key: string): nat { if key in f.topics then f.topics[key].callbacks else 0 }

  predicate ReliableAt(f: Flat, key: string) { key in f.topics && f.topics[key].reliable }

  // --------------------------------------------------------------- topic operations

  /** What an operation on one topic does to the snapshot `f`, giving `g`. */
  predicate TopicEffect(f: Flat, g: Flat, op: Op)
    requires IsTopicOp(op)
  {
    var key := KeyOf(op);
    var was, is_ := ListsOf(f, key), ListsOf(g, key);
    match op
    case Announce(peer, _, _, isPublisher) =>
      && key in g.topics && g.topics[key].topicName == op.topicName && g.topics[key].messageType == op.messageType
      && is_.publishers == (if isPublisher then was.publishers + {peer} else was.publishers)
      && is_.subscribers == (if isPublisher then was.subscribers else was.subscribers + {peer})
      && CallbacksOf(g, key) == CallbacksOf(f, key) && ReliableAt(g, key) == ReliableAt(f, key)
    case Register(_, _, reliable, withCallback) =>
      && key in g.topics && g.topics[key].topicName == op.topicName && g.topics[key].messageType == op.messageType
      && is_ == was && ReliableAt(g, key) == reliable
      && CallbacksOf(g, key) == CallbacksOf(f, key) + if withCallback then 1 else 0
    case Subscribe(_, _) =>
      && (key in g.topics <==> key in f.topics) && is_ == was && ReliableAt(g, key) == ReliableAt(f, key)
      && (key in f.topics ==> CallbacksOf(g, key) == CallbacksOf(f, key) + 1)
    case UnregisterPublisher(_, _) =>
      && (key in g.topics <==> key in f.topics && CallbacksOf(f, key) > 0)
      && (key in g.topics ==> g.topics[key] == f.topics[key])
    case UnregisterSubscriber(_, _) =>
      && (key in g.topics <==> key in f.topics && was.publishers + was.subscribers != {})
      && is_ == was && CallbacksOf(g, key) == 0
      && (key in g.topics ==> ReliableAt(g, key) == ReliableAt(f, key))
  }

  /** An operation on one topic has its effect on the merged snapshot, and no other: every
      other topic and every participant stays as it was. */
  lemma TopicOpExact(l: Layout, shards: seq<Shard>, op: Op, other: string)
    requires Routed(l, shards) && IsTopicOp(op) && !(op.Announce? && op.peer.uid == l.self)
    ensures var f, g := Merge(shards), Merge(ApplySharded(l, shards, op));
            && TopicEffect(f, g, op) && g.participants == f.participants
            && (other != KeyOf(op) ==> Get(g.topics, other) == Get(f.topics, other))
  {
    hide Merge, Routed, ApplySharded, KeyOf;
    StepRefines(l, shards, op);
    FlatEffect(l.self, Merge(shards), op, other);
  }

  lemma FlatEffect(self: nat, f: Flat, op: Op, other: string)
    requires IsTopicOp(op) && !(op.Announce? && op.peer.uid == self)
    ensures var g := ApplyFlat(self, f, op);
            && TopicEffect(f, g, op) && g.participants == f.participants
            && (other != KeyOf(op) ==> Get(g.topics, other) == Get(f.topics, other))
  {
    hide KeyOf;
  }

  // --------------------------------------------------------------------- heartbeats

  /** The peer is registered as last heard at `now`, with endpoints `endpoints`. */
  predicate Heard(f: Flat, uid: nat, endpoints: seq<string>, now: real) {
    uid in f.participants && f.participants[uid].lastSeen == now && f.participants[uid].endpoints == endpoints
  }

  /** A foreign heartbeat registers or refreshes its sender, under the identity it was first
      heard with, and touches nothing else. */
  lemma HeartbeatExact(l: Layout, shards: seq<Shard>, hello: Op, other: nat)
    requires Routed(l, shards) && hello.Heartbeat? && hello.peer.uid != l.self
    ensures var f, g := Merge(shards), Merge(ApplySharded(l, shards, hello)); var uid := hello.peer.uid;
            && Heard(g, uid, hello.endpoints, hello.now) && g.topics == f.topics
            && g.participants[uid].peer == (if uid in f.participants then f.participants[uid].peer else hello.peer)
            && (other != uid ==> Get(g.participants, other) == Get(f.participants, other))
  {
    hide Merge, Routed, ApplySharded;
    StepRefines(l, shards, hello);
    FlatHeartbeat(l.self, Merge(shards), hello, other);
  }

  lemma FlatHeartbeat(self: nat, f: Flat, hello: Op, other: nat)
    requires hello.Heartbeat? && hello.peer.uid != self
    ensures var g := ApplyFlat(self, f, hello); var uid := hello.peer.uid;
            && Heard(g, uid, hello.endpoints, hello.now) && g.topics == f.topics
            && g.participants[uid].peer == (if uid in f.participants then f.participants[uid].peer else hello.peer)
            && (other != uid ==> Get(g.participants, other) == Get(f.participants, other))
  {
  }

  /** `op` neither hears peer `uid` again nor evicts it as it was last heard. */
  ghost predicate Spares(op: Op, uid: nat, endpoints: seq<string>, now: real) {
    && (op.Heartbeat? ==> op.peer.uid != uid)
    && (op.Cleanup? ==> forall p: Participant | p.lastSeen == now && p.endpoints == endpoints :: !op.expired(p))
  }

  lemma HeardStep(self: nat, f: Flat, op: Op, uid: nat, endpoints: seq<string>, now: real)
    requires Heard(f, uid, endpoints, now) && Spares(op, uid, endpoints, now)
    ensures Heard(ApplyFlat(self, f, op), uid, endpoints, now)
  {
    hide KeyOf, TopicAfter, CleanTopics;
  }

  lemma {:induction false} HeardRun(self: nat, f: Flat, ops: seq<Op>, uid: nat, endpoints: seq<string>, now: real)
    requires Heard(f, uid, endpoints, now) && forall op <- ops :: Spares(op, uid, endpoints, now)
    ensures Heard(RunFlat(self, f, ops), uid, endpoints, now)
    decreases |ops|
  {
    hide ApplyFlat, Heard, Spares;
    if ops != [] {
      HeardStep(self, f, ops[0], uid, endpoints, now);
      HeardRun(self, ApplyFlat(self, f, ops[0]), ops[1..], uid, endpoints, now);
    }
  }

  /** After any run a foreign peer is registered as its last heartbeat said, unless a cleanup
      has evicted it since. */
  lemma HeardPeerStays(l: Layout, shards: seq<Shard>, before: seq<Op>, hello: Op, after: seq<Op>)
    requires Routed(l, shards) && hello.Heartbeat? && hello.peer.uid != l.self
    requires forall op <- after :: Spares(op, hello.peer.uid, hello.endpoints, hello.now)
    ensures Routed(l, RunSharded(l, shards, before + ([hello] + after)))
    ensures Heard(Merge(RunSharded(l, shards, before + ([hello] + after))), hello.peer.uid, hello.endpoints, hello.now)
  {
    hide Merge, Routed, RunSharded, RunFlat, Heard, Spares;
    var ops := before + ([hello] + after);
    RoutedSize(l, shards);
    ShardedRefinesFlat(l, shards, ops);
    RunJoins(l.self, Merge(shards), before, [hello] + after);
    var f := RunFlat(l.self, Merge(shards), before);
    RunsOn(l.self, f, hello, after);
    FlatHeartbeat(l.self, f, hello, hello.peer.uid);
    HeardRun(l.self, ApplyFlat(l.self, f, hello), after, hello.peer.uid, hello.endpoints, hello.now);
  }

  lemma RunsOn(self: nat, f: Flat, op: Op, after: seq<Op>)
    ensures RunFlat(self, f, [op] + after) == RunFlat(self, ApplyFlat(self, f, op), after)
  {
    hide ApplyFlat;
    assert ([op] + after)[1..] == after;
  }

  /** The timeout cleanup at time `t`. */
  function TimeoutAt(t: real, timeout: real): Op { Cleanup((p: Participant) => t - p.lastSeen > timeout) }

  /** A peer heard within the timeout survives the cleanup, under every topic that lists it; one
      not heard for longer does not. */
  lemma TimeoutExact(l: Layout, shards: seq<Shard>, t: real, timeout: real, p: SubscriberKey, key: string)
    requires Routed(l, shards)
    requires p.uid in Merge(shards).participants
    ensures var f, g := Merge(shards), Merge(ApplySharded(l, shards, TimeoutAt(t, timeout)));
            var kept := t - f.participants[p.uid].lastSeen <= timeout;
            && (p.uid in g.participants <==> kept)
            && (kept ==> g.participants[p.uid] == f.participants[p.uid])
            && (p in ListsOf(g, key).publishers <==> p in ListsOf(f, key).publishers && kept)
            && (p in ListsOf(g, key).subscribers <==> p in ListsOf(f, key).subscribers && kept)
  {
    hide Merge, Routed, ApplySharded, ApplyFlat;
    StepRefines(l, shards, TimeoutAt(t, timeout));
    FlatTimeout(l.self, Merge(shards), t, timeout, p, key);
  }

  lemma FlatTimeout(self: nat, f: Flat, t: real, timeout: real, p: SubscriberKey, key: string)
    requires p.uid in f.participants
    ensures var g := ApplyFlat(self, f, TimeoutAt(t, timeout));
            var kept := t - f.participants[p.uid].lastSeen <= timeout;
            && (p.uid in g.participants <==> kept)
            && (kept ==> g.participants[p.uid] == f.participants[p.uid])
            && (p in ListsOf(g, key).publishers <==> p in ListsOf(f, key).publishers && kept)
            && (p in ListsOf(g, key).subscribers <==> p in ListsOf(f, key).subscribers && kept)
  {
    var stale := ExpiredIn(f.participants, TimeoutAt(t, timeout).expired);
    PurgeLists(f, stale, key);
    assert ListsOf(CleanFlat(f, stale), key) == ListsOf(PurgedTopics(f, stale), key);
    hide ListsOf, CleanTopics;
  }

  /** So a peer whose last heartbeat is within the timeout is there after the next cleanup,
      wherever it is listed. */
  lemma HeardPeerSurvives(l: Layout, shards: seq<Shard>, before: seq<Op>, hello: Op, after: seq<Op>,
                          t: real, timeout: real, key: string)
    requires Routed(l, shards) && hello.Heartbeat? && hello.peer.uid != l.self && t - hello.now <= timeout
    requires forall op <- after :: Spares(op, hello.peer.uid, hello.endpoints, hello.now)
    ensures var now := RunSharded(l, shards, before + ([hello] + after));
            && Routed(l, now)
            && var f, g := Merge(now), Merge(ApplySharded(l, now, TimeoutAt(t, timeout)));
               && Heard(g, hello.peer.uid, hello.endpoints, hello.now)
               && (hello.peer in ListsOf(f, key).publishers ==> hello.peer in ListsOf(g, key).publishers)
               && (hello.peer in ListsOf(f, key).subscribers ==> hello.peer in ListsOf(g, key).subscribers)
  {
    RoutedSize(l, shards);
    HeardPeerStays(l, shards, before, hello, after);
    var now := RunSharded(l, shards, before + ([hello] + after));
    hide Merge, Routed, RunSharded, ApplySharded, ListsOf;
    RoutedSize(l, now);
    TimeoutExact(l, now, t, timeout, hello.peer, key);
  }

  // ----------------------------------------------------------------------- loopback

  /** The node itself is nowhere in the registry. */
  predicate Absent(f: Flat, self: nat) {
    self !in f.participants
    && forall key <- f.topics, p <- f.topics[key].publishers + f.topics[key].subscribers :: p.uid != self
  }

  lemma AbsentStep(self: nat, f: Flat, op: Op)
    requires Absent(f, self)
    ensures Absent(ApplyFlat(self, f, op), self)
  {
    hide KeyOf;
    var g := ApplyFlat(self, f, op);
    forall key, p | key in g.topics && p in g.topics[key].publishers + g.topics[key].subscribers ensures p.uid != self {
      assert key in f.topics && p in f.topics[key].publishers + f.topics[key].subscribers ==> p.uid != self;
    }
  }

  lemma {:induction false} AbsentRun(self: nat, f: Flat, ops: seq<Op>)
    requires Absent(f, self)
    ensures Absent(RunFlat(self, f, ops), self)
    decreases |ops|
  {
    hide ApplyFlat, Absent;
    if ops != [] {
      AbsentStep(self, f, ops[0]);
      AbsentRun(self, ApplyFlat(self, f, ops[0]), ops[1..]);
    }
  }

  /** Over every run from an empty registry, its own looped-back announcements included, the
      node neither registers nor lists itself. */
  lemma NeverListsItself(l: Layout, shards: seq<Shard>, ops: seq<Op>)
    requires Routed(l, shards) && Merge(shards) == Shard(map[], map[])
    ensures 1 <= l.workers == |shards| && Absent(Merge(RunSharded(l, shards, ops)), l.self)
  {
    hide Merge, Routed, RunSharded, RunFlat;
    RoutedSize(l, shards);
    ShardedRefinesFlat(l, shards, ops);
    AbsentRun(l.self, Shard(map[], map[]), ops);
  }
}
