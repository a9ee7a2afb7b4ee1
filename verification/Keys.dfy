/** Identities and the string keys the registries are indexed by. */
module Keys {

  datatype Option<+T> = None | Some(value: T)

  /** A dialing subscriber's identity; it keys the publisher's stream table. */
  datatype SubscriberKey = SubscriberKey(pid: nat, tid: nat, uid: nat)

  predicate NoDup<T(==)>(s: seq<T>) { forall i, j | 0 <= i < j < |s| :: s[i] != s[j] }

  /** The unit separator placed between topic name and message type. */
  const TOPIC_KEY_SEPARATOR: char := 0x1F as char

  function MakeCompositeKey(topicName: string, messageType: string): string {
    topicName + [TOPIC_KEY_SEPARATOR] + messageType
  }

  /** Decimal digits of `n`, most significant first (`std::to_string`). */
  function Decimal(n: nat): (s: string)
    ensures s != [] && forall c <- s :: '0' <= c <= '9'
  {
    if n < 10 then [Digit(n)] else Decimal(n / 10) + [Digit(n % 10)]
  }

  function Digit(d: nat): (c: char)
    requires d < 10
    ensures '0' <= c <= '9'
  {
    ('0' as int + d) as char
  }

  /** The prefix every receive-window key of publisher `uid` starts with. */
  function UidPrefix(uid: nat): string { Decimal(uid) + "|" }

  function WindowKey(uid: nat, composite: string): string { UidPrefix(uid) + composite }

  /** `s.rfind(prefix, 0) == 0`. */
  predicate StartsWith(s: string, prefix: string) { prefix <= s }

  /** The shard that owns `key`; `hash` stands for FNV-1a. A single shard needs no hash. */
  function ShardOf(key: string, workers: nat, hash: string -> nat): (i: nat)
    requires workers >= 1
    ensures i < workers
  {
    if workers <= 1 then 0 else hash(key) % workers
  }

  lemma {:induction false} DecimalInjective(a: nat, b: nat)
    requires Decimal(a) == Decimal(b)
    ensures a == b
  {
    var da, db := Decimal(a), Decimal(b);
    assert da[|da| - 1] == Digit(a % 10) && db[|db| - 1] == Digit(b % 10);
    if a >= 10 && b >= 10 {
      assert da[..|da| - 1] == Decimal(a / 10) && db[..|db| - 1] == Decimal(b / 10);
      DecimalInjective(a / 10, b / 10);
    }
  }

  /** A separator absent from both heads splits a string in one way only. */
  lemma SplitOnce(a: string, x: string, b: string, y: string, c: char)
    requires c !in a && c !in b
    requires a + [c] + x == b + [c] + y
    ensures a == b && x == y
  {
    var key := a + [c] + x;
    assert key[|a|] == c && key[|b|] == c;
    assert forall i | 0 <= i < |a| :: key[i] == a[i] != c;
    assert forall i | 0 <= i < |b| :: key[i] == b[i] != c;
    assert a == key[..|a|] && b == key[..|b|];
    assert x == key[|a| + 1..] && y == key[|b| + 1..];
  }

  /** A window key carries the prefix of exactly one publisher: its own. */
  lemma PrefixIdentifiesUid(uid: nat, composite: string, other: nat)
    ensures StartsWith(WindowKey(uid, composite), UidPrefix(other)) <==> uid == other
  {
    var key, p := WindowKey(uid, composite), UidPrefix(other);
    if StartsWith(key, p) {
      var rest := key[|p|..];
      assert key == Decimal(uid) + ['|'] + composite;
      assert key == p + rest == Decimal(other) + ['|'] + rest;
      SplitOnce(Decimal(uid), composite, Decimal(other), rest, '|');
      DecimalInjective(uid, other);
    }
  }

  /** Window keys collide only for the same publisher and the same composite key. */
  lemma WindowKeyInjective(uid: nat, composite: string, uid2: nat, composite2: string)
    ensures WindowKey(uid, composite) == WindowKey(uid2, composite2) <==> uid == uid2 && composite == composite2
  {
    if WindowKey(uid, composite) == WindowKey(uid2, composite2) {
      assert Decimal(uid) + ['|'] + composite == Decimal(uid2) + ['|'] + composite2;
      SplitOnce(Decimal(uid), composite, Decimal(uid2), composite2, '|');
      DecimalInjective(uid, uid2);
    }
  }

  /** Cut at its last separator a key splits in one way only as well. */
  lemma SplitOnceAtLast(a: string, x: string, b: string, y: string, c: char)
    requires c !in x && c !in y
    requires a + [c] + x == b + [c] + y
    ensures a == b && x == y
  {
    var key := a + [c] + x;
    assert key[|a|] == c && key[|b|] == c;
    assert forall i | |a| < i < |key| :: key[i] == x[i - |a| - 1] != c;
    assert forall i | |b| < i < |key| :: key[i] == y[i - |b| - 1] != c;
    assert a == key[..|a|] && b == key[..|b|];
    assert x == key[|a| + 1..] && y == key[|b| + 1..];
  }

  /** Keys keep (topic, type) pairs apart whenever no type holds the separator, whatever
      the topics, or no topic does, whatever the types. Types come from message
      descriptors, whose full names never hold it. */
  lemma CompositeKeyInjective(t1: string, m1: string, t2: string, m2: string)
    requires (TOPIC_KEY_SEPARATOR !in m1 && TOPIC_KEY_SEPARATOR !in m2)
             || (TOPIC_KEY_SEPARATOR !in t1 && TOPIC_KEY_SEPARATOR !in t2)
    ensures MakeCompositeKey(t1, m1) == MakeCompositeKey(t2, m2) <==> t1 == t2 && m1 == m2
  {
    if MakeCompositeKey(t1, m1) == MakeCompositeKey(t2, m2) {
      if TOPIC_KEY_SEPARATOR !in m1 && TOPIC_KEY_SEPARATOR !in m2 {
        SplitOnceAtLast(t1, m1, t2, m2, TOPIC_KEY_SEPARATOR);
      } else {
        SplitOnce(t1, m1, t2, m2, TOPIC_KEY_SEPARATOR);
      }
    }
  }

  ghost predicate SharesKey(t: string, m: string) {
    exists t2, m2 :: (t2 != t || m2 != m) && MakeCompositeKey(t2, m2) == MakeCompositeKey(t, m)
  }

  /** Exactly which pairs share their key with another one: those that hold the character
      31. The topic name is in front. */
  lemma CompositeKeyCollidesIff(t: string, m: string)
    ensures SharesKey(t, m) <==> 31 as char in t || 31 as char in m
    ensures t + [31 as char] <= MakeCompositeKey(t, m)
  {
    var sep := TOPIC_KEY_SEPARATOR;
    if i :| 0 <= i < |t| && t[i] == sep {
      CutsElsewhere(t, m, t[..i], t[i + 1..] + [sep] + m);
    } else if i :| 0 <= i < |m| && m[i] == sep {
      CutsElsewhere(t, m, t + [sep] + m[..i], m[i + 1..]);
    } else {
      forall t2, m2 | MakeCompositeKey(t2, m2) == MakeCompositeKey(t, m) ensures t2 == t && m2 == m {
        OneSeparator(t, m, t2, m2);
      }
    }
  }

  lemma CutsElsewhere(t: string, m: string, t2: string, m2: string)
    requires |t2| != |t| && MakeCompositeKey(t2, m2) == MakeCompositeKey(t, m)
    ensures SharesKey(t, m)
  {
  }

  lemma OneSeparator(t: string, m: string, t2: string, m2: string)
    requires TOPIC_KEY_SEPARATOR !in t && TOPIC_KEY_SEPARATOR !in m
    requires MakeCompositeKey(t2, m2) == MakeCompositeKey(t, m)
    ensures t2 == t && m2 == m
  {
    var key := MakeCompositeKey(t, m);
    assert key[|t2|] == TOPIC_KEY_SEPARATOR;
    assert forall i | 0 <= i < |t| :: key[i] == t[i];
    assert forall i | |t| < i < |key| :: key[i] == m[i - |t| - 1];
    assert |t2| == |t|;
    assert t2 == key[..|t|] == t && m2 == key[|t| + 1..] == m;
  }

  /** A collision takes a separator in one of the two types, and one in one of the topics. */
  lemma CollisionNeedsBoth(t1: string, m1: string, t2: string, m2: string)
    requires (t1 != t2 || m1 != m2) && MakeCompositeKey(t1, m1) == MakeCompositeKey(t2, m2)
    ensures TOPIC_KEY_SEPARATOR in m1 || TOPIC_KEY_SEPARATOR in m2
    ensures TOPIC_KEY_SEPARATOR in t1 || TOPIC_KEY_SEPARATOR in t2
  {
    if TOPIC_KEY_SEPARATOR !in m1 && TOPIC_KEY_SEPARATOR !in m2 {
      CompositeKeyInjective(t1, m1, t2, m2);
    } else if TOPIC_KEY_SEPARATOR !in t1 && TOPIC_KEY_SEPARATOR !in t2 {
      CompositeKeyInjective(t1, m1, t2, m2);
    }
  }
}
