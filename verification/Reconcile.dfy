/** Reconciliation of a subscriber's connections with the publishers its reliable
    subscriptions need. */
module Reconcile {
  import opened Keys
  import opened Registry

  /** A publisher to dial, with its ordered endpoint candidates. */
  datatype Target = Target(key: SubscriberKey, candidates: seq<string>)

  /** A connection; `serial` tells apart the connections ever made. */
  datatype Conn = Conn(serial: nat, candidates: seq<string>)

  /** A pass in progress: the table, the connections it replaced and those it dialed. */
  datatype Pass = Pass(conns: map<SubscriberKey, Conn>, replaced: seq<Conn>, dialed: seq<Conn>, dials: nat)

  /** A connection on an endpoint the publisher no longer advertises; one that is not
      connected yet is never stale. */
  predicate Stale(connected: string, t: Target) { connected != "" && connected !in t.candidates }

  function KeysOf(needed: seq<Target>): set<SubscriberKey> { set t | t in needed :: t.key }

  /** `now` is what each connection's `currentEndpoint` answers during the pass. */
  function DialOne(p: Pass, t: Target, now: nat -> string): Pass {
    if t.key in p.conns && !Stale(now(p.conns[t.key].serial), t) then p
    else
      var c := Conn(p.dials, t.candidates);
      Pass(p.conns[t.key := c], if t.key in p.conns then p.replaced + [p.conns[t.key]] else p.replaced,
           p.dialed + [c], p.dials + 1)
  }

  function DialAll(p: Pass, needed: seq<Target>, now: nat -> string): Pass
    decreases |needed|
  {
    if needed == [] then p else DialOne(DialAll(p, needed[..|needed| - 1], now), needed[|needed| - 1], now)
  }

  function StillNeeded(conns: map<SubscriberKey, Conn>, needed: seq<Target>): map<SubscriberKey, Conn> {
    map k | k in conns && k in KeysOf(needed) :: conns[k]
  }

  function Dropped(conns: map<SubscriberKey, Conn>, needed: seq<Target>): set<Conn> {
    DroppedAmong(conns, conns.Keys, needed)
  }

  function DroppedAmong(conns: map<SubscriberKey, Conn>, keys: set<SubscriberKey>, needed: seq<Target>): set<Conn> {
    set k | k in keys && k in conns && k !in KeysOf(needed) :: conns[k]
  }

  function Reconciled(conns: map<SubscriberKey, Conn>, dials: nat, needed: seq<Target>, now: nat -> string): Pass {
    DialAll(Pass(StillNeeded(conns, needed), [], [], dials), needed, now)
  }

  function All(conns: map<SubscriberKey, Conn>): set<Conn> { set k | k in conns :: conns[k] }

  /** No connection sits under two keys, and serials are handed out in order. */
  predicate Distinct(conns: map<SubscriberKey, Conn>, dials: nat) {
    && (forall k, l | k in conns && l in conns && k != l :: conns[k] != conns[l])
    && (forall k <- conns :: conns[k].serial < dials)
  }

  lemma KeysMore(needed: seq<Target>, t: Target)
    ensures KeysOf(needed + [t]) == KeysOf(needed) + {t.key}
  {
    assert t in needed + [t];
    assert forall u <- needed :: u in needed + [t];
  }

  lemma LastOf(needed: seq<Target>)
    requires needed != []
    ensures needed == needed[..|needed| - 1] + [needed[|needed| - 1]]
  {
  }

  // ------------------------------------------------------------------- the table

  lemma {:induction false} DialedKeys(p: Pass, needed: seq<Target>, now: nat -> string)
    ensures DialAll(p, needed, now).conns.Keys == p.conns.Keys + KeysOf(needed)
    decreases |needed|
  {
    if needed != [] {
      LastOf(needed);
      KeysMore(needed[..|needed| - 1], needed[|needed| - 1]);
      DialedKeys(p, needed[..|needed| - 1], now);
    }
  }

  /** The connection keys become exactly the needed keys. */
  lemma KeysExact(conns: map<SubscriberKey, Conn>, dials: nat, needed: seq<Target>, now: nat -> string)
    ensures Reconciled(conns, dials, needed, now).conns.Keys == KeysOf(needed)
  {
    DialedKeys(Pass(StillNeeded(conns, needed), [], [], dials), needed, now);
  }

  // ------------------------------------------------------------------ conservation

  lemma DialOneConserves(p: Pass, t: Target, now: nat -> string)
    requires Distinct(p.conns, p.dials)
    ensures var q := DialOne(p, t, now);
            && Distinct(q.conns, q.dials)
            && multiset(All(q.conns)) + multiset(q.replaced) + multiset(p.dialed)
               == multiset(All(p.conns)) + multiset(p.replaced) + multiset(q.dialed)
  {
    var q := DialOne(p, t, now);
    if q != p {
      var c := Conn(p.dials, t.candidates);
      assert All(q.conns) == (if t.key in p.conns then All(p.conns) - {p.conns[t.key]} else All(p.conns)) + {c} by {
        SwapIn(p.conns, t.key, c);
      }
      assert c !in All(p.conns);
    }
  }

  lemma SwapIn(conns: map<SubscriberKey, Conn>, key: SubscriberKey, c: Conn)
    requires forall k, l | k in conns && l in conns && k != l :: conns[k] != conns[l]
    requires c !in All(conns)
    ensures All(conns[key := c]) == (if key in conns then All(conns) - {conns[key]} else All(conns)) + {c}
  {
    var after := conns[key := c];
    assert key in after && after[key] == c;
    forall x ensures x in All(after) <==> x == c || (x in All(conns) && !(key in conns && x == conns[key])) {
      if k :| k in conns && conns[k] == x && k != key {
        assert k in after && after[k] == x;
      }
    }
  }

  lemma {:induction false} DialAllConserves(p: Pass, needed: seq<Target>, now: nat -> string)
    requires Distinct(p.conns, p.dials)
    ensures var q := DialAll(p, needed, now);
            && Distinct(q.conns, q.dials)
            && multiset(All(q.conns)) + multiset(q.replaced) + multiset(p.dialed)
               == multiset(All(p.conns)) + multiset(p.replaced) + multiset(q.dialed)
    decreases |needed|
  {
    hide DialOne, Distinct, All;
    if needed != [] {
      var m := DialAll(p, needed[..|needed| - 1], now);
      var q := DialAll(p, needed, now);
      DialAllConserves(p, needed[..|needed| - 1], now);
      DialOneConserves(m, needed[|needed| - 1], now);
      Chained(multiset(All(p.conns)) + multiset(p.replaced), multiset(p.dialed),
              multiset(All(m.conns)) + multiset(m.replaced),
              multiset(m.dialed), multiset(All(q.conns)) + multiset(q.replaced), multiset(q.dialed));
    }
  }

  lemma Chained<T>(a0: multiset<T>, d0: multiset<T>, a1: multiset<T>, d1: multiset<T>, a2: multiset<T>, d2: multiset<T>)
    requires a1 + d0 == a0 + d1 && a2 + d1 == a1 + d2
    ensures a2 + d0 == a0 + d2
  {
    forall x: T ensures (a2 + d0)[x] == (a0 + d2)[x] {
      assert (a1 + d0)[x] == (a0 + d1)[x] && (a2 + d1)[x] == (a1 + d2)[x];
    }
  }

  lemma SplitAll(conns: map<SubscriberKey, Conn>, dials: nat, needed: seq<Target>)
    requires Distinct(conns, dials)
    ensures Distinct(StillNeeded(conns, needed), dials)
    ensures multiset(All(conns)) == multiset(All(StillNeeded(conns, needed))) + multiset(Dropped(conns, needed))
  {
    var kept := StillNeeded(conns, needed);
    forall x ensures x in All(conns) <==> x in All(kept) || x in Dropped(conns, needed) {
      if k :| k in conns && conns[k] == x && k in KeysOf(needed) {
        assert k in kept && kept[k] == x;
      }
    }
    assert All(kept) !! Dropped(conns, needed);
    assert All(conns) == All(kept) + Dropped(conns, needed);
  }

  /** Every old and every newly dialed connection ends up in exactly one place, once:
      in the table, among the dropped, or among the replaced. */
  lemma NothingLeaks(conns: map<SubscriberKey, Conn>, dials: nat, needed: seq<Target>, now: nat -> string)
    requires Distinct(conns, dials)
    ensures var r := Reconciled(conns, dials, needed, now);
            && Distinct(r.conns, r.dials)
            && multiset(All(r.conns)) + multiset(Dropped(conns, needed)) + multiset(r.replaced)
               == multiset(All(conns)) + multiset(r.dialed)
  {
    hide DialAll, All, Dropped, Distinct, StillNeeded;
    SplitAll(conns, dials, needed);
    DialAllConserves(Pass(StillNeeded(conns, needed), [], [], dials), needed, now);
    var r := Reconciled(conns, dials, needed, now);
    var none: seq<Conn> := [];
    Joined(multiset(All(r.conns)), multiset(r.replaced), multiset(All(StillNeeded(conns, needed))), multiset(r.dialed),
           multiset(Dropped(conns, needed)), multiset(none));
  }

  lemma Joined<T>(a: multiset<T>, r: multiset<T>, k: multiset<T>, d: multiset<T>, x: multiset<T>, e: multiset<T>)
    requires a + r + e == k + e + d
    ensures a + x + r == (k + x) + d
  {
    forall y: T ensures (a + x + r)[y] == ((k + x) + d)[y] {
      assert (a + r + e)[y] == (k + e + d)[y];
    }
  }

  // ------------------------------------------------------------------- who survives

  /** No target of the list finds the connection stale. */
  predicate Welcome(c: Conn, key: SubscriberKey, needed: seq<Target>, now: nat -> string) {
    forall t <- needed | t.key == key :: !Stale(now(c.serial), t)
  }

  lemma {:induction false} KeptThrough(p: Pass, needed: seq<Target>, now: nat -> string, key: SubscriberKey)
    requires key in p.conns && p.conns[key].serial < p.dials
    ensures var q := DialAll(p, needed, now);
            && key in q.conns && p.dials <= q.dials
            && (q.conns[key] == p.conns[key] <==> Welcome(p.conns[key], key, needed, now))
            && (q.conns[key] != p.conns[key] ==> q.conns[key].serial >= p.dials)
    decreases |needed|
  {
    if needed != [] {
      var init, last := needed[..|needed| - 1], needed[|needed| - 1];
      KeptThrough(p, init, now, key);
      LastOf(needed);
      assert Welcome(p.conns[key], key, needed, now)
        <==> Welcome(p.conns[key], key, init, now) && (last.key == key ==> !Stale(now(p.conns[key].serial), last));
      hide Welcome, DialAll, Stale;
    }
  }

  /** An old connection survives exactly when its key is needed and no target under that
      key finds its current endpoint gone. */
  lemma KeptExactly(conns: map<SubscriberKey, Conn>, dials: nat, needed: seq<Target>, now: nat -> string,
                    key: SubscriberKey)
    requires Distinct(conns, dials) && key in conns
    ensures var r := Reconciled(conns, dials, needed, now);
            (key in r.conns && r.conns[key] == conns[key]) <==>
            (key in KeysOf(needed) && Welcome(conns[key], key, needed, now))
  {
    KeysExact(conns, dials, needed, now);
    if key in KeysOf(needed) {
      KeptThrough(Pass(StillNeeded(conns, needed), [], [], dials), needed, now, key);
    }
  }

  /** The same on the endpoints: an old connection survives if and only if its key is needed,
      and it is not connected yet or every target of the key lists its endpoint. */
  lemma SurvivesIff(conns: map<SubscriberKey, Conn>, dials: nat, needed: seq<Target>, now: nat -> string,
                    key: SubscriberKey)
    requires Distinct(conns, dials) && key in conns
    ensures var r, at := Reconciled(conns, dials, needed, now), now(conns[key].serial);
            (key in r.conns && r.conns[key] == conns[key]) <==>
            ((exists t <- needed :: t.key == key)
             && forall t <- needed | t.key == key :: at == "" || at in t.candidates)
  {
    KeptExactly(conns, dials, needed, now, key);
    hide Reconciled;
  }

  /** Nothing to do: the keys are right and nobody is on an endpoint that is gone. */
  predicate Settled(conns: map<SubscriberKey, Conn>, needed: seq<Target>, now: nat -> string) {
    && conns.Keys == KeysOf(needed)
    && forall t <- needed :: t.key in conns && !Stale(now(conns[t.key].serial), t)
  }

  lemma {:induction false} IdleThrough(p: Pass, needed: seq<Target>, now: nat -> string)
    requires forall t <- needed :: t.key in p.conns && !Stale(now(p.conns[t.key].serial), t)
    ensures DialAll(p, needed, now) == p
    decreases |needed|
  {
    if needed != [] {
      assert needed[|needed| - 1] in needed;
      IdleThrough(p, needed[..|needed| - 1], now);
    }
  }

  /** A pass changes nothing exactly when the connections are settled. */
  lemma IdleIff(conns: map<SubscriberKey, Conn>, dials: nat, needed: seq<Target>, now: nat -> string)
    requires Distinct(conns, dials)
    ensures Reconciled(conns, dials, needed, now) == Pass(conns, [], [], dials) && Dropped(conns, needed) == {}
        <==> Settled(conns, needed, now)
  {
    if Settled(conns, needed, now) {
      assert StillNeeded(conns, needed) == conns;
      IdleThrough(Pass(conns, [], [], dials), needed, now);
    } else if Reconciled(conns, dials, needed, now).conns == conns {
      KeysExact(conns, dials, needed, now);
      forall t | t in needed ensures !Stale(now(conns[t.key].serial), t) {
        KeptExactly(conns, dials, needed, now, t.key);
        assert Welcome(conns[t.key], t.key, needed, now);
      }
    }
  }

  /** One key, one candidate list. */
  predicate Functional(needed: seq<Target>) {
    forall t, u | t in needed && u in needed && t.key == u.key :: t.candidates == u.candidates
  }

  /** A connection only ever reports one of its own candidates. */
  predicate Honest(conns: map<SubscriberKey, Conn>, now: nat -> string) {
    forall k <- conns :: now(conns[k].serial) == "" || now(conns[k].serial) in conns[k].candidates
  }

  lemma {:induction false} FreshHasCandidates(p: Pass, needed: seq<Target>, all: seq<Target>,
                                        now: nat -> string, key: SubscriberKey)
    requires Functional(all) && forall t <- needed :: t in all
    requires forall k <- p.conns :: p.conns[k].serial < p.dials
    ensures var q := DialAll(p, needed, now);
            && p.dials <= q.dials && (forall k <- q.conns :: q.conns[k].serial < q.dials)
            && (key in q.conns && q.conns[key].serial >= p.dials ==>
                  forall t <- all | t.key == key :: q.conns[key].candidates == t.candidates)
    decreases |needed|
  {
    if needed != [] {
      assert needed[|needed| - 1] in needed;
      FreshHasCandidates(p, needed[..|needed| - 1], all, now, key);
    }
  }

  /** No connection dialed by the pass is on an endpoint that a target of its key lacks. */
  predicate FreshFit(r: Pass, dials: nat, needed: seq<Target>, now: nat -> string) {
    forall t <- needed | t.key in r.conns && r.conns[t.key].serial >= dials :: !Stale(now(r.conns[t.key].serial), t)
  }

  /** A pass settles the connections if and only if it dialed none, for a key with several
      targets, onto an endpoint that one of these lacks; what it kept is never at fault. */
  lemma PassSettlesIff(conns: map<SubscriberKey, Conn>, dials: nat, needed: seq<Target>, now: nat -> string)
    requires Distinct(conns, dials)
    ensures var r := Reconciled(conns, dials, needed, now);
            Settled(r.conns, needed, now) <==> FreshFit(r, dials, needed, now)
  {
    var p := Pass(StillNeeded(conns, needed), [], [], dials);
    var r := Reconciled(conns, dials, needed, now);
    KeysExact(conns, dials, needed, now);
    hide Stale, Distinct, DialAll;
    forall t | t in needed && r.conns[t.key].serial < dials ensures !Stale(now(r.conns[t.key].serial), t) {
      OldIsWelcome(conns, dials, needed, now, t);
    }
  }

  lemma OldIsWelcome(conns: map<SubscriberKey, Conn>, dials: nat, needed: seq<Target>, now: nat -> string, t: Target)
    requires Distinct(conns, dials) && t in needed
    requires var r := Reconciled(conns, dials, needed, now); t.key in r.conns && r.conns[t.key].serial < dials
    ensures !Stale(now(Reconciled(conns, dials, needed, now).conns[t.key].serial), t)
  {
    var p := Pass(StillNeeded(conns, needed), [], [], dials);
    var r := Reconciled(conns, dials, needed, now);
    OldOnesWereThere(p, needed, now, t.key);
    KeptThrough(p, needed, now, t.key);
    assert Welcome(r.conns[t.key], t.key, needed, now);
    hide DialAll;
  }

  /** Targets that agree on their keys' candidates are enough: after the pass nobody is
      connected outside its candidates. */
  lemma PassSettles(conns: map<SubscriberKey, Conn>, dials: nat, needed: seq<Target>, now: nat -> string)
    requires Distinct(conns, dials) && Functional(needed)
    requires Honest(Reconciled(conns, dials, needed, now).conns, now)
    ensures Settled(Reconciled(conns, dials, needed, now).conns, needed, now)
  {
    var p := Pass(StillNeeded(conns, needed), [], [], dials);
    var r := Reconciled(conns, dials, needed, now);
    PassSettlesIff(conns, dials, needed, now);
    forall t | t in needed && t.key in r.conns && r.conns[t.key].serial >= dials
      ensures !Stale(now(r.conns[t.key].serial), t)
    {
      FreshHasCandidates(p, needed, needed, now, t.key);
    }
  }

  lemma {:induction false} OldOnesWereThere(p: Pass, needed: seq<Target>, now: nat -> string, key: SubscriberKey)
    requires var q := DialAll(p, needed, now); key in q.conns && q.conns[key].serial < p.dials
    ensures p.dials <= DialAll(p, needed, now).dials
    ensures key in p.conns && DialAll(p, needed, now).conns[key] == p.conns[key]
    decreases |needed|
  {
    DialsGrow(p, needed, now);
    if needed != [] {
      DialsGrow(p, needed[..|needed| - 1], now);
      OldOnesWereThere(p, needed[..|needed| - 1], now, key);
    }
  }

  lemma {:induction false} DialsGrow(p: Pass, needed: seq<Target>, now: nat -> string)
    ensures p.dials <= DialAll(p, needed, now).dials
    decreases |needed|
  {
    if needed != [] {
      DialsGrow(p, needed[..|needed| - 1], now);
    }
  }

  /** Main theorem: a second run with unchanged inputs changes nothing, if and only if the
      first put no new connection onto an endpoint that some target of its key lacks. */
  lemma SecondRunIdleIff(conns: map<SubscriberKey, Conn>, dials: nat, needed: seq<Target>, now: nat -> string)
    requires Distinct(conns, dials)
    ensures var r := Reconciled(conns, dials, needed, now);
            Reconciled(r.conns, r.dials, needed, now) == Pass(r.conns, [], [], r.dials)
            && Dropped(r.conns, needed) == {}
            <==> FreshFit(r, dials, needed, now)
  {
    var r := Reconciled(conns, dials, needed, now);
    hide Reconciled, Dropped, Settled, FreshFit;
    PassSettlesIff(conns, dials, needed, now);
    NothingLeaks(conns, dials, needed, now);
    IdleIff(r.conns, r.dials, needed, now);
  }

  /** In particular it changes nothing when targets agree on their keys' candidates. */
  lemma SecondRunIdle(conns: map<SubscriberKey, Conn>, dials: nat, needed: seq<Target>, now: nat -> string)
    requires Distinct(conns, dials) && Functional(needed)
    requires Honest(Reconciled(conns, dials, needed, now).conns, now)
    ensures var r := Reconciled(conns, dials, needed, now);
            && Reconciled(r.conns, r.dials, needed, now) == Pass(r.conns, [], [], r.dials)
            && Dropped(r.conns, needed) == {}
  {
    var r := Reconciled(conns, dials, needed, now);
    PassSettles(conns, dials, needed, now);
    NothingLeaks(conns, dials, needed, now);
    IdleIff(r.conns, r.dials, needed, now);
  }

  /** The agreement matters: while the connection of two targets' common key is up on an
      endpoint that is not on both lists, every pass dials again. With disjoint lists
      that is whenever it is up; with overlapping ones until it lands on a shared one. */
  lemma ClashKeepsDialing(conns: map<SubscriberKey, Conn>, dials: nat, needed: seq<Target>, now: nat -> string,
                          t: Target, u: Target)
    requires Distinct(conns, dials) && t in needed && u in needed && t.key == u.key
    requires t.key in conns ==>
      var at := now(conns[t.key].serial); at != "" && !(at in t.candidates && at in u.candidates)
    ensures var r := Reconciled(conns, dials, needed, now);
            r.dialed != [] && t.key in r.conns && (t.key in conns ==> r.conns[t.key] != conns[t.key])
  {
    var p := Pass(StillNeeded(conns, needed), [], [], dials);
    KeysExact(conns, dials, needed, now);
    assert t.key in KeysOf(needed);
    if t.key in conns {
      KeptExactly(conns, dials, needed, now, t.key);
      assert !Welcome(conns[t.key], t.key, needed, now);
    }
    NothingDialed(p, needed, now);
    hide DialAll;
    assert DialAll(p, needed, now) != p;
  }

  lemma {:induction false} NothingDialed(p: Pass, needed: seq<Target>, now: nat -> string)
    ensures |p.dialed| <= |DialAll(p, needed, now).dialed|
    ensures |DialAll(p, needed, now).dialed| == |p.dialed| ==> DialAll(p, needed, now) == p
    decreases |needed|
  {
    if needed != [] {
      NothingDialed(p, needed[..|needed| - 1], now);
    }
  }

  // ----------------------------------------------------------- where targets come from

  /** What the registry tells to dial for one subscribed topic: its publishers that
      advertise an endpoint. */
  function TopicTargets(f: Flat, key: string): set<Target> {
    if key !in f.topics then {} else PeerTargets(f, f.topics[key].publishers)
  }

  function PeerTargets(f: Flat, peers: set<SubscriberKey>): set<Target> {
    set p | p in peers && Dialable(f, p) :: Target(p, f.participants[p.uid].endpoints)
  }

  lemma PeerTargetsMore(f: Flat, peers: set<SubscriberKey>, p: SubscriberKey)
    ensures PeerTargets(f, {}) == {}
    ensures PeerTargets(f, peers + {p})
         == PeerTargets(f, peers) + if Dialable(f, p) then {Target(p, f.participants[p.uid].endpoints)} else {}
  {
  }

  predicate Dialable(f: Flat, p: SubscriberKey) { p.uid in f.participants && f.participants[p.uid].endpoints != [] }

  /** Static seeds are dialed under a key made up from their endpoint, while there is any
      reliable subscription. */
  function SeedTargets(seeds: seq<string>, seedKey: string -> SubscriberKey): set<Target> {
    set e | e in seeds :: Target(seedKey(e), [e])
  }

  function Wanted(f: Flat, subscribed: set<string>, seeds: seq<string>, seedKey: string -> SubscriberKey): set<Target> {
    TopicsTargets(f, subscribed) + if subscribed == {} then {} else SeedTargets(seeds, seedKey)
  }

  function TopicsTargets(f: Flat, keys: set<string>): set<Target> {
    set key, t | key in keys && t in TopicTargets(f, key) :: t
  }

  lemma TopicsTargetsMore(f: Flat, keys: set<string>, key: string)
    ensures TopicsTargets(f, keys + {key}) == TopicsTargets(f, keys) + TopicTargets(f, key)
  {
    hide TopicTargets;
  }

  lemma SeedTargetsMore(seeds: seq<string>, seedKey: string -> SubscriberKey, e: string)
    ensures SeedTargets(seeds + [e], seedKey) == SeedTargets(seeds, seedKey) + {Target(seedKey(e), [e])}
  {
    assert e in seeds + [e];
    assert forall s <- seeds :: s in seeds + [e];
  }

  /** `k` publishes a subscribed topic and advertises `c`, which is not empty. */
  predicate Publishes(f: Flat, subscribed: set<string>, k: SubscriberKey, c: seq<string>) {
    && (exists key <- subscribed :: key in f.topics && k in f.topics[key].publishers)
    && k.uid in f.participants && f.participants[k.uid].endpoints == c && c != []
  }

  /** `k` and `c` are those of a static seed, and there is a reliable subscription. */
  predicate Seeded(subscribed: set<string>, seeds: seq<string>, seedKey: string -> SubscriberKey,
                   k: SubscriberKey, c: seq<string>)
  {
    subscribed != {} && exists e <- seeds :: seedKey(e) == k && [e] == c
  }

  /** Who is dialed: exactly the publishers of subscribed topics that advertise an endpoint,
      and the seeds. */
  lemma WantedExact(f: Flat, subscribed: set<string>, seeds: seq<string>, seedKey: string -> SubscriberKey,
                    k: SubscriberKey, c: seq<string>)
    ensures Target(k, c) in Wanted(f, subscribed, seeds, seedKey)
        <==> Publishes(f, subscribed, k, c) || Seeded(subscribed, seeds, seedKey, k, c)
  {
    var t := Target(k, c);
    assert t in TopicsTargets(f, subscribed) <==> Publishes(f, subscribed, k, c) by {
      if Publishes(f, subscribed, k, c) {
        var key :| key in subscribed && key in f.topics && k in f.topics[key].publishers;
        assert t in TopicTargets(f, key);
      }
    }
    if Seeded(subscribed, seeds, seedKey, k, c) {
      var e :| e in seeds && seedKey(e) == k && [e] == c;
      assert t in SeedTargets(seeds, seedKey);
    }
  }

  /** After a pass over the dial set every one of them has a connection, and nobody else. */
  lemma DialedExactly(conns: map<SubscriberKey, Conn>, dials: nat, needed: seq<Target>, now: nat -> string,
                      f: Flat, subscribed: set<string>, seeds: seq<string>, seedKey: string -> SubscriberKey,
                      k: SubscriberKey)
    requires forall t :: t in needed <==> t in Wanted(f, subscribed, seeds, seedKey)
    ensures k in Reconciled(conns, dials, needed, now).conns <==>
            exists c :: Publishes(f, subscribed, k, c) || Seeded(subscribed, seeds, seedKey, k, c)
  {
    hide Wanted, Publishes, Seeded, Reconciled;
    KeysExact(conns, dials, needed, now);
    if c :| Publishes(f, subscribed, k, c) || Seeded(subscribed, seeds, seedKey, k, c) {
      WantedExact(f, subscribed, seeds, seedKey, k, c);
      assert Target(k, c) in needed;
    }
    if k in KeysOf(needed) {
      var t :| t in needed && t.key == k;
      WantedExact(f, subscribed, seeds, seedKey, k, t.candidates);
      assert t == Target(k, t.candidates);
    }
  }

  function Elements<T>(s: seq<T>): set<T> { set x | x in s }

  /** Targets agree on their keys' candidates unless a seed's made-up key clashes with
      another seed's or with a known publisher's. */
  lemma WantedFunctional(f: Flat, subscribed: set<string>, seeds: seq<string>,
                         seedKey: string -> SubscriberKey, needed: seq<Target>)
    requires Elements(needed) == Wanted(f, subscribed, seeds, seedKey)
    requires forall a, b | a in seeds && b in seeds && seedKey(a) == seedKey(b) :: a == b
    requires forall a, key | a in seeds && key in f.topics :: seedKey(a) !in f.topics[key].publishers
    ensures Functional(needed)
  {
    forall t, u | t in needed && u in needed && t.key == u.key ensures t.candidates == u.candidates {
      assert t in Elements(needed) && u in Elements(needed);
    }
  }

  lemma ElementsMore<T>(s: seq<T>, x: T)
    ensures Elements(s + [x]) == Elements(s) + {x}
  {
    assert x in s + [x];
    assert forall y <- s :: y in s + [x];
  }

  lemma NoneDroppedYet(conns: map<SubscriberKey, Conn>, needed: seq<Target>)
    ensures DroppedAmong(conns, {}, needed) == {}
    ensures forall k: SubscriberKey | k !in conns :: k !in StillNeeded(conns, needed)
  {
  }

  lemma StillNeededAt(conns: map<SubscriberKey, Conn>, needed: seq<Target>, key: SubscriberKey)
    ensures Get(StillNeeded(conns, needed), key) == if key in KeysOf(needed) then Get(conns, key) else None
  {
  }

  lemma DropOne(conns: map<SubscriberKey, Conn>, keys: set<SubscriberKey>, key: SubscriberKey, needed: seq<Target>)
    requires (forall k, l | k in conns && l in conns && k != l :: conns[k] != conns[l]) && key !in keys
    ensures var before, after := multiset(DroppedAmong(conns, keys, needed)),
                multiset(DroppedAmong(conns, keys + {key}, needed));
            after == if key in conns && key !in KeysOf(needed) then before + multiset{conns[key]} else before
  {
    var before, after := DroppedAmong(conns, keys, needed), DroppedAmong(conns, keys + {key}, needed);
    if key in conns && key !in KeysOf(needed) {
      assert after == before + {conns[key]} && conns[key] !in before;
    } else {
      assert after == before;
    }
  }

  lemma StaysDistinct(conns: map<SubscriberKey, Conn>, dials: nat, needed: seq<Target>, now: nat -> string)
    requires Distinct(conns, dials)
    ensures var r := Reconciled(conns, dials, needed, now); Distinct(r.conns, r.dials)
  {
    NothingLeaks(conns, dials, needed, now);
  }

  lemma DistinctValues(conns: map<SubscriberKey, Conn>, dials: nat)
    requires Distinct(conns, dials)
    ensures forall k, l | k in conns && l in conns && k != l :: conns[k] != conns[l]
  {
  }

  lemma NothingBuilt(f: Flat, seedKey: string -> SubscriberKey)
    ensures TopicsTargets(f, {}) == {} && SeedTargets([], seedKey) == {} && Elements<Target>([]) == {}
  {
  }

  // -------------------------------------------------- the condition on the inputs

  function SeedList(seeds: seq<string>, seedKey: string -> SubscriberKey): seq<Target> {
    seq(|seeds|, i requires 0 <= i < |seeds| => Target(seedKey(seeds[i]), [seeds[i]]))
  }

  /** The dial set as it is built: the registry's targets, then the seeds. */
  ghost predicate Built(needed: seq<Target>, known: seq<Target>, f: Flat, subscribed: set<string>,
                        seeds: seq<string>, seedKey: string -> SubscriberKey)
  {
    && Elements(known) == TopicsTargets(f, subscribed)
    && needed == known + if subscribed == {} then [] else SeedList(seeds, seedKey)
  }

  /** A seed whose key is also another target's is on that target's list. */
  predicate SeedsFit(needed: seq<Target>, seeds: seq<string>, seedKey: string -> SubscriberKey) {
    forall e, t | e in seeds && t in needed && t.key == seedKey(e) :: e in t.candidates
  }

  /** Whatever the connections, a second pass with unchanged inputs does nothing. */
  ghost predicate IdleAgain(conns: map<SubscriberKey, Conn>, dials: nat, needed: seq<Target>, now: nat -> string) {
    var r := Reconciled(conns, dials, needed, now);
    Distinct(conns, dials) && Honest(r.conns, now) ==>
      Reconciled(r.conns, r.dials, needed, now) == Pass(r.conns, [], [], r.dials) && Dropped(r.conns, needed) == {}
  }

  /** A connection the pass made is some target's, and no later target of its key finds it
      stale. */
  lemma {:induction false} MadeFor(p: Pass, needed: seq<Target>, now: nat -> string, key: SubscriberKey)
    returns (i: nat)
    requires (key in p.conns ==> p.conns[key].serial < p.dials)
    requires var q := DialAll(p, needed, now); key in q.conns && q.conns[key].serial >= p.dials
    ensures i < |needed| && needed[i].key == key
    ensures var c := DialAll(p, needed, now).conns[key];
            && c.candidates == needed[i].candidates
            && forall j | i < j < |needed| && needed[j].key == key :: !Stale(now(c.serial), needed[j])
    decreases |needed|
  {
    var init, last := needed[..|needed| - 1], needed[|needed| - 1];
    var m := DialAll(p, init, now);
    hide Stale;
    if last.key == key && !(key in m.conns && !Stale(now(m.conns[key].serial), last)) {
      i := |needed| - 1;
    } else {
      i := MadeFor(p, init, now, key);
      assert forall j | i < j < |init| :: needed[j] == init[j];
    }
  }

  lemma SeedsFitIsEnough(conns: map<SubscriberKey, Conn>, dials: nat, needed: seq<Target>, now: nat -> string,
                         known: seq<Target>, seeds: seq<string>, seedKey: string -> SubscriberKey)
    requires Functional(known) && SeedsFit(needed, seeds, seedKey)
    requires needed == known || needed == known + SeedList(seeds, seedKey)
    ensures IdleAgain(conns, dials, needed, now)
  {
    var r := Reconciled(conns, dials, needed, now);
    if Distinct(conns, dials) && Honest(r.conns, now) {
      forall t | t in needed && t.key in r.conns && r.conns[t.key].serial >= dials
        ensures !Stale(now(r.conns[t.key].serial), t)
      {
        var i := MadeFor(Pass(StillNeeded(conns, needed), [], [], dials), needed, now, t.key);
        FitsLater(needed, known, seeds, seedKey, i, t, now(r.conns[t.key].serial));
      }
      SecondRunIdleIff(conns, dials, needed, now);
    }
  }

  /** An endpoint of target `i` that no later target of its key lacks is on every list. */
  lemma FitsLater(needed: seq<Target>, known: seq<Target>, seeds: seq<string>, seedKey: string -> SubscriberKey,
                  i: nat, t: Target, at: string)
    requires Functional(known) && SeedsFit(needed, seeds, seedKey)
    requires needed == known || needed == known + SeedList(seeds, seedKey)
    requires i < |needed| && t in needed && needed[i].key == t.key && (at == "" || at in needed[i].candidates)
    requires forall j | i < j < |needed| && needed[j].key == t.key :: !Stale(at, needed[j])
    ensures !Stale(at, t)
  {
    if at != "" {
      var j :| 0 <= j < |needed| && needed[j] == t;
      if i >= |known| {
        var e := seeds[i - |known|];
        assert needed[i] == SeedList(seeds, seedKey)[i - |known|] == Target(seedKey(e), [e]);
        assert e in seeds;
      } else if j < |known| {
        assert needed[i] == known[i] && t == known[j] && known[i] in known && known[j] in known;
      }
    }
  }

  /** What a pass does depends on the answers of the connections it knows only. */
  lemma {:induction false} NowAgrees(p: Pass, needed: seq<Target>, now: nat -> string, now': nat -> string)
    requires forall k <- p.conns :: p.conns[k].serial < p.dials
    requires forall n: nat | n < DialAll(p, needed, now).dials :: now(n) == now'(n)
    ensures DialAll(p, needed, now') == DialAll(p, needed, now)
    ensures forall k <- DialAll(p, needed, now).conns ::
            DialAll(p, needed, now).conns[k].serial < DialAll(p, needed, now).dials
    decreases |needed|
  {
    if needed != [] {
      var init := needed[..|needed| - 1];
      assert DialAll(p, init, now).dials <= DialAll(p, needed, now).dials;
      NowAgrees(p, init, now, now');
    }
  }

  /** Every connection is up on its first candidate. */
  predicate Up(q: Pass, now: nat -> string) {
    forall k <- q.conns ::
      var c := q.conns[k]; c.serial < q.dials && c.candidates != [] && now(c.serial) == c.candidates[0]
  }

  function Answering(now: nat -> string, serial: nat, endpoint: string): nat -> string {
    (n: nat) => if n == serial then endpoint else now(n)
  }

  lemma UpMore(m: Pass, last: Target, before: nat -> string)
    requires Up(m, before) && last.candidates != []
    ensures var now := Answering(before, m.dials, last.candidates[0]); Up(DialOne(m, last, now), now)
  {
    hide Stale;
  }

  /** From an empty table all of them may be. */
  lemma {:induction false} AllUp(needed: seq<Target>) returns (now: nat -> string)
    requires forall t <- needed :: t.candidates != []
    ensures Up(DialAll(Pass(map[], [], [], 0), needed, now), now)
    decreases |needed|
  {
    var empty := Pass(map[], [], [], 0);
    if needed == [] {
      now := n => "";
    } else {
      var init, last := needed[..|needed| - 1], needed[|needed| - 1];
      var before := AllUp(init);
      var m := DialAll(empty, init, before);
      now := Answering(before, m.dials, last.candidates[0]);
      NowAgrees(empty, init, before, now);
      DialsLast(empty, needed, now);
      UpMore(m, last, before);
      hide DialAll, DialOne, Up;
    }
  }

  lemma DialsLast(p: Pass, needed: seq<Target>, now: nat -> string)
    requires needed != []
    ensures DialAll(p, needed, now) == DialOne(DialAll(p, needed[..|needed| - 1], now), needed[|needed| - 1], now)
  {
  }

  lemma UpFromEmpty(needed: seq<Target>) returns (now: nat -> string)
    requires forall x <- needed :: x.candidates != [] && "" !in x.candidates
    ensures var conns := Reconciled(map[], 0, needed, now).conns;
            && conns.Keys == KeysOf(needed) && Honest(conns, now)
            && forall k <- conns :: now(conns[k].serial) != ""
  {
    now := AllUp(needed);
    KeysExact(map[], 0, needed, now);
    assert StillNeeded(map[], needed) == map[];
    assert Reconciled(map[], 0, needed, now) == DialAll(Pass(map[], [], [], 0), needed, now);
    hide DialAll, KeysOf, Reconciled;
    forall k | k in Reconciled(map[], 0, needed, now).conns
      ensures var c := Reconciled(map[], 0, needed, now).conns[k];
              now(c.serial) in c.candidates && now(c.serial) != ""
    {
      var i := MadeFor(Pass(map[], [], [], 0), needed, now, k);
      assert needed[i] in needed;
    }
  }

  lemma MisfitShows(needed: seq<Target>, e: string, u: Target, t: Target)
    requires forall x <- needed :: x.candidates != [] && "" !in x.candidates
    requires u in needed && t in needed && u.key == t.key && u.candidates == [e] && e !in t.candidates
    ensures exists now: nat -> string :: !IdleAgain(map[], 0, needed, now)
  {
    hide Reconciled, IdleAgain, Honest;
    var now := UpFromEmpty(needed);
    var conns := Reconciled(map[], 0, needed, now).conns;
    assert u.key in KeysOf(needed);
    IdleAfterFirst(needed, now);
    assert Stale(now(conns[u.key].serial), u) || Stale(now(conns[u.key].serial), t);
    assert !IdleAgain(map[], 0, needed, now);
  }

  lemma IdleAfterFirst(needed: seq<Target>, now: nat -> string)
    requires Honest(Reconciled(map[], 0, needed, now).conns, now)
    ensures IdleAgain(map[], 0, needed, now) <==> Settled(Reconciled(map[], 0, needed, now).conns, needed, now)
  {
    var r := Reconciled(map[], 0, needed, now);
    assert Distinct(map[], 0);
    NothingLeaks(map[], 0, needed, now);
    IdleIff(r.conns, r.dials, needed, now);
  }

  lemma NonEmptyElements<T>(s: seq<T>)
    ensures s != [] ==> Elements(s) != {}
  {
    if s != [] {
      assert s[0] in Elements(s);
    }
  }

  lemma BuiltTargets(needed: seq<Target>, known: seq<Target>, f: Flat, subscribed: set<string>,
                     seeds: seq<string>, seedKey: string -> SubscriberKey)
    requires Built(needed, known, f, subscribed, seeds, seedKey)
    ensures Functional(known)
    ensures forall t <- known ::
            t.key.uid in f.participants && t.candidates == f.participants[t.key.uid].endpoints != []
    ensures if subscribed == {} then needed == [] else forall e <- seeds :: Target(seedKey(e), [e]) in needed
  {
    NonEmptyElements(known);
    forall t | t in known
      ensures t.key.uid in f.participants && t.candidates == f.participants[t.key.uid].endpoints != []
    {
      assert t in Elements(known);
    }
    if subscribed != {} {
      forall e | e in seeds ensures Target(seedKey(e), [e]) in needed {
        var i :| 0 <= i < |seeds| && seeds[i] == e;
        assert SeedList(seeds, seedKey)[i] == Target(seedKey(e), [e]);
        assert needed[|known| + i] == SeedList(seeds, seedKey)[i];
      }
    }
  }

  /** The same on the inputs: whatever the connections and their honest answers, a second
      pass does nothing, if and only if every seed whose key is also another target's has
      its endpoint on that target's list. */
  lemma AlwaysIdleIff(needed: seq<Target>, known: seq<Target>, f: Flat, subscribed: set<string>,
                      seeds: seq<string>, seedKey: string -> SubscriberKey)
    requires Built(needed, known, f, subscribed, seeds, seedKey)
    requires "" !in seeds && forall uid <- f.participants :: "" !in f.participants[uid].endpoints
    ensures (forall conns, dials: nat, now: nat -> string :: IdleAgain(conns, dials, needed, now))
        <==> SeedsFit(needed, seeds, seedKey)
  {
    BuiltTargets(needed, known, f, subscribed, seeds, seedKey);
    assert forall t <- needed :: t.candidates != [] && "" !in t.candidates;
    hide IdleAgain, Functional;
    if SeedsFit(needed, seeds, seedKey) {
      forall conns, dials: nat, now: nat -> string ensures IdleAgain(conns, dials, needed, now) {
        SeedsFitIsEnough(conns, dials, needed, now, known, seeds, seedKey);
      }
    } else {
      var e, t :| e in seeds && t in needed && t.key == seedKey(e) && e !in t.candidates;
      MisfitShows(needed, e, Target(seedKey(e), [e]), t);
    }
  }

  lemma TargetsExact(needed: seq<Target>, f: Flat, subscribed: set<string>, seeds: seq<string>,
                     seedKey: string -> SubscriberKey)
    requires Elements(needed) == Wanted(f, subscribed, seeds, seedKey)
    ensures forall k, c :: Target(k, c) in needed <==>
              Publishes(f, subscribed, k, c) || Seeded(subscribed, seeds, seedKey, k, c)
  {
    hide Wanted, Publishes, Seeded;
    forall k, c ensures Target(k, c) in needed <==>
                        Publishes(f, subscribed, k, c) || Seeded(subscribed, seeds, seedKey, k, c)
    {
      WantedExact(f, subscribed, seeds, seedKey, k, c);
      assert Target(k, c) in needed <==> Target(k, c) in Elements(needed);
    }
  }

  /** The node's dialed connections. */
  class ReliableConnections {
    var connections: map<SubscriberKey, Conn>
    var dials: nat

    ghost predicate Valid()
      reads this
    {
      Distinct(connections, dials)
    }

    constructor ()
      ensures Valid() && connections == map[]
    {
      connections, dials := map[], 0;
    }

    method TargetsOfTopic(reg: ShardedRegistry, key: string, before: seq<Target>) returns (needed: seq<Target>)
      requires reg.Valid()
      ensures Elements(needed) == Elements(before) + TopicTargets(Merge(reg.shards), key)
    {
      needed := before;
      RoutedSize(reg.layout, reg.shards);
      HomeTopic(reg.layout, reg.shards, key);
      ghost var f := Merge(reg.shards);
      hide Merge, Routed, TopicHome, UidHome, Elements, PeerTargets;
      var topics := reg.shards[TopicHome(reg.layout, key)].topics;
      if key !in topics {
        return;
      }
      var todo := topics[key].publishers;
      ghost var done := {};
      PeerTargetsMore(f, {}, SubscriberKey(0, 0, 0));
      while todo != {}
        invariant todo + done == topics[key].publishers && Elements(needed) == Elements(before) + PeerTargets(f, done)
        decreases todo
      {
        var p :| p in todo;
        HomeParticipant(reg.layout, reg.shards, p.uid);
        PeerTargetsMore(f, done, p);
        var participants := reg.shards[UidHome(reg.layout, p.uid)].participants;
        if p.uid in participants && participants[p.uid].endpoints != [] {
          ElementsMore(needed, Target(p, participants[p.uid].endpoints));
          needed := needed + [Target(p, participants[p.uid].endpoints)];
        }
        todo, done := todo - {p}, done + {p};
      }
    }

    /** The dial set: across the shards, then the static seeds. */
    method BuildTargets(reg: ShardedRegistry, seeds: seq<string>,
                        seedKey: string -> SubscriberKey) returns (needed: seq<Target>, ghost known: seq<Target>)
      requires reg.Valid()
      ensures Built(needed, known, Merge(reg.shards), reg.reliableSubscribed, seeds, seedKey)
      ensures Elements(needed) == Wanted(Merge(reg.shards), reg.reliableSubscribed, seeds, seedKey)
      ensures forall k, c :: Target(k, c) in needed <==>
                Publishes(Merge(reg.shards), reg.reliableSubscribed, k, c)
                || Seeded(reg.reliableSubscribed, seeds, seedKey, k, c)
    {
      ghost var f := Merge(reg.shards);
      hide Merge, Routed, TopicTargets, TopicsTargets, SeedTargets, Elements;
      needed := [];
      var todo := reg.reliableSubscribed;
      ghost var done := {};
      NothingBuilt(f, seedKey);
      while todo != {}
        invariant todo + done == reg.reliableSubscribed && Elements(needed) == TopicsTargets(f, done)
        decreases todo
      {
        var key :| key in todo;
        TopicsTargetsMore(f, done, key);
        needed := TargetsOfTopic(reg, key, needed);
        todo, done := todo - {key}, done + {key};
      }
      known := needed;
      assert needed + [] == needed;
      if reg.reliableSubscribed != {} {
        needed := AddSeeds(needed, seeds, seedKey);
      }
      TargetsExact(needed, f, reg.reliableSubscribed, seeds, seedKey);
    }

    static method AddSeeds(before: seq<Target>, seeds: seq<string>,
                           seedKey: string -> SubscriberKey) returns (needed: seq<Target>)
      ensures needed == before + SeedList(seeds, seedKey)
      ensures Elements(needed) == Elements(before) + SeedTargets(seeds, seedKey)
    {
      needed := before;
      hide SeedTargets, Elements;
      NothingBuilt(Shard(map[], map[]), seedKey);
      assert seeds[..0] == [];
      for i := 0 to |seeds|
        invariant needed == before + SeedList(seeds, seedKey)[..i]
        invariant Elements(needed) == Elements(before) + SeedTargets(seeds[..i], seedKey)
      {
        ElementsMore(needed, Target(seedKey(seeds[i]), [seeds[i]]));
        SeedTargetsMore(seeds[..i], seedKey, seeds[i]);
        assert seeds[..i + 1] == seeds[..i] + [seeds[i]];
        needed := needed + [Target(seedKey(seeds[i]), [seeds[i]])];
      }
      assert seeds[..|seeds|] == seeds;
    }

    /** The locked part: retire what is no longer needed, then dial and re-dial. The
        caller stops what comes back once the lock is released. */
    method Reconcile(needed: seq<Target>, now: nat -> string) returns (retired: seq<Conn>)
      requires Valid()
      modifies this
      ensures Valid()
      ensures var r := Reconciled(old(connections), old(dials), needed, now);
              && connections == r.conns && dials == r.dials
              && multiset(retired) == multiset(Dropped(old(connections), needed)) + multiset(r.replaced)
    {
      hide KeysOf, Stale, Distinct, Dropped, StillNeeded;
      StaysDistinct(connections, dials, needed, now);
      assert forall k, l | k in connections && l in connections && k != l :: connections[k] != connections[l] by {
        DistinctValues(connections, dials);
      }
      connections, retired := DropUnneeded(connections, needed);
      var replaced := DialNeeded(needed, now);
      retired := retired + replaced;
    }

    /** Dial publishers not connected yet; re-dial where the endpoint is gone. */
    method DialNeeded(needed: seq<Target>, now: nat -> string) returns (replaced: seq<Conn>)
      modifies this
      ensures var p := DialAll(Pass(old(connections), [], [], old(dials)), needed, now);
              connections == p.conns && dials == p.dials && replaced == p.replaced
    {
      hide Stale;
      replaced := [];
      ghost var start := Pass(connections, [], [], dials);
      for i := 0 to |needed|
        invariant var p := DialAll(start, needed[..i], now);
                  connections == p.conns && dials == p.dials && replaced == p.replaced
      {
        var t := needed[i];
        assert needed[..i + 1][..i] == needed[..i];
        var stale := true;
        if t.key in connections {
          stale := Stale(now(connections[t.key].serial), t);
          if stale {
            replaced := replaced + [connections[t.key]];
          }
        }
        if stale {
          connections := connections[t.key := Conn(dials, t.candidates)];
          dials := dials + 1;
        }
      }
      assert needed[..|needed|] == needed;
    }

    static method DropUnneeded(conns: map<SubscriberKey, Conn>, needed: seq<Target>)
      returns (kept: map<SubscriberKey, Conn>, retired: seq<Conn>)
      requires forall k, l | k in conns && l in conns && k != l :: conns[k] != conns[l]
      ensures kept == StillNeeded(conns, needed)
      ensures multiset(retired) == multiset(Dropped(conns, needed))
    {
      kept, retired := conns, [];
      var todo := conns.Keys;
      ghost var final := StillNeeded(conns, needed);
      hide KeysOf, DroppedAmong, StillNeeded;
      NoneDroppedYet(conns, needed);
      assert conns.Keys - todo == {};
      while todo != {}
        invariant todo <= conns.Keys
        invariant forall k: SubscriberKey :: Get(kept, k) == if k in todo then Get(conns, k) else Get(final, k)
        invariant multiset(retired) == multiset(DroppedAmong(conns, conns.Keys - todo, needed))
        decreases todo
      {
        var key :| key in todo;
        DropOne(conns, conns.Keys - todo, key, needed);
        StillNeededAt(conns, needed, key);
        assert conns.Keys - todo + {key} == conns.Keys - (todo - {key});
        var stillNeeded := IsNeeded(key, needed);
        if !stillNeeded {
          retired := retired + [conns[key]];
          kept := kept - {key};
        }
        todo := todo - {key};
      }
      SameMap(kept, final);
      assert conns.Keys - todo == conns.Keys;
    }

    static method IsNeeded(key: SubscriberKey, needed: seq<Target>) returns (yes: bool)
      ensures yes == (key in KeysOf(needed))
    {
      for i := 0 to |needed|
        invariant key !in KeysOf(needed[..i])
      {
        if needed[i].key == key {
          return true;
        }
        KeysMore(needed[..i], needed[i]);
        assert needed[..i + 1] == needed[..i] + [needed[i]];
      }
      assert needed[..|needed|] == needed;
      return false;
    }
  }
}
