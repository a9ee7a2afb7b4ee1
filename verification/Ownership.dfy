/** Who owns what: the worker whose ring gets a frame is the one whose shard the frame is
    about. */
module Ownership {
  import opened Keys
  import opened Numbers
  import P = Pipeline
  import R = Registry
  import Wire

  /** Receiver and registry are cut up alike. */
  ghost predicate Matching(c: P.Setup, l: R.Layout) { c.workers == l.workers && c.hash == l.hash }

  /** The shard that a frame's content is about: a heartbeat's sender, a topic's entry. */
  function About(l: R.Layout, content: P.Content): Option<nat>
    requires l.workers >= 1
  {
    match content
    case Identifier(uid) => Some(R.UidHome(l, uid))
    case DataNames(topic, messageType) => Some(R.TopicHome(l, MakeCompositeKey(topic, messageType)))
    case Advertised(topic, messageType) => Some(R.TopicHome(l, MakeCompositeKey(topic, messageType)))
    case Unset => None
  }

  /** A frame that the parser accepts and that repeats neither content nor name goes to the ring
      of the shard that its content is about, and to none if it has no content. */
  lemma WorkerOwnsShard(c: P.Setup, l: R.Layout, body: seq<byte>)
    requires P.Sound(c) && Matching(c, l) && c.accepts(body) && Wire.Plain(body)
    ensures var content := P.Decode(c, body);
            && content.Some?
            && var route := P.Route(c, body);
               About(l, content.value) == if route.Some? then Some(P.ShardIndex(c, route.value)) else None
  {
    P.PlainRouting(c, body);
    hide P.Route, Wire.Plain, Wire.FullNames, MakeCompositeKey;
  }

  /** So do the frames of one uid, and those of one topic, whatever their kind. */
  lemma SameTopicSameWorker(c: P.Setup, l: R.Layout, data: seq<byte>, ad: seq<byte>, topic: string, messageType: string)
    requires P.Sound(c) && Matching(c, l) && c.accepts(data) && c.accepts(ad) && Wire.Plain(data) && Wire.Plain(ad)
    requires P.Decode(c, data) == Some(P.DataNames(topic, messageType))
    requires P.Decode(c, ad) == Some(P.Advertised(topic, messageType))
    ensures P.Route(c, data).Some? && P.Route(c, ad).Some?
    ensures P.ShardIndex(c, P.Route(c, data).value) == P.ShardIndex(c, P.Route(c, ad).value)
         == R.TopicHome(l, MakeCompositeKey(topic, messageType))
  {
    WorkerOwnsShard(c, l, data);
    WorkerOwnsShard(c, l, ad);
    hide P.Route, P.Decode, Wire.Plain, MakeCompositeKey;
  }

  /** Every shard is reached: a key hashed to `i` lives in shard `i`, and keys whose hashes are
      the same modulo the number of shards live together. */
  lemma ShardsReached(key: string, other: string, workers: nat, hash: string -> nat)
    requires workers >= 1
    ensures hash(key) < workers ==> ShardOf(key, workers, hash) == hash(key)
    ensures ShardOf(key, workers, hash) == ShardOf(other, workers, hash)
        <==> exists k: int :: hash(key) == hash(other) + k * workers
  {
    Congruent(hash(key), hash(other), workers);
    if workers == 1 {
      ByOne(hash(key), hash(other));
    } else {
      SmallModulo(hash(key), workers);
    }
  }

  lemma ByOne(a: nat, b: nat)
    ensures exists k: int :: a == b + k * 1
  {
    assert a == b + (a - b) * 1;
  }

  lemma SmallModulo(a: nat, n: nat)
    requires n >= 1
    ensures a < n ==> a % n == a
  {
  }

  lemma Congruent(a: nat, b: nat, n: nat)
    requires n >= 1
    ensures a % n == b % n <==> exists k: int :: a == b + k * n
  {
    if a % n == b % n {
      assert a == b + (a / n - b / n) * n;
    } else if k: int :| a == b + k * n {
      ModShift(b, k, n);
    }
  }

  lemma ModShift(b: nat, k: int, n: nat)
    requires n >= 1 && b + k * n >= 0
    ensures (b + k * n) % n == b % n
  {
    var q := (b + k * n) / n - b / n - k;
    assert q * n + (b + k * n) % n - b % n == 0;
    MultipleAtLeast(q, n);
  }

  lemma MultipleAtLeast(q: int, n: int)
    requires n >= 1
    ensures q >= 1 ==> q * n >= n
    ensures q <= -1 ==> q * n <= -n
  {
    if q >= 1 {
      assert q * n >= 1 * n;
    } else if q <= -1 {
      assert q * n <= -1 * n;
    }
  }
}
