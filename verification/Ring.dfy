/** The bounded single-producer/single-consumer ring of a receive worker. */
module Ring {
  import opened Keys
  import opened Numbers

  /** The counters are `std::uint64_t`. */
  const COUNTER_MODULUS: nat := 0x1_0000_0000_0000_0000

  // ------------------------------------------------------------------ arithmetic

  /** Reducing a counter first does not change its slot when the capacity divides 2^64. */
  lemma WrapKeepsSlot(x: nat, m: nat, c: nat)
    requires 0 < c && 0 < m && m % c == 0
    ensures (x % m) % c == x % c
  {
    var r := x % m;
    var q := (m / c) * (x / m) + r / c;
    assert c * q + r % c == x by {
      assert c * ((m / c) * (x / m)) == (c * (m / c)) * (x / m) == m * (x / m);
      assert c * q == c * ((m / c) * (x / m)) + c * (r / c);
    }
    DivUnique(x, c, q, r % c);
  }

  lemma SlotsDiffer(x: nat, d: nat, c: nat)
    requires 0 < d < c
    ensures x % c != (x + d) % c
  {
    var k := (x + d) / c - x / c;
    assert (x + d) % c - x % c == d - c * k;
    MultipleBounds(c, k);
  }

  /** Counter value `i` steps after `t`. */
  function At(t: nat, i: nat): nat { (t + i) % COUNTER_MODULUS }

  function Increment(counter: nat): nat { At(counter, 1) }

  function Index(position: nat, capacity: nat): (i: nat)
    requires 0 < capacity
    ensures i < capacity
  {
    position % capacity
  }

  /** Slot of the `i`-th counter value from `t` on. */
  function Slot(t: nat, i: nat, capacity: nat): (s: nat)
    requires 0 < capacity
  {
    Index(At(t, i), capacity)
  }

  lemma Counters(t: nat, n: nat)
    requires t < COUNTER_MODULUS && n < COUNTER_MODULUS
    ensures At(t, 0) == t && At(At(t, n), 1) == At(t, n + 1)
    ensures At(t, n) < COUNTER_MODULUS && (At(t, n) == t <==> n == 0)
    ensures (At(t, n) + COUNTER_MODULUS - t) % COUNTER_MODULUS == n
  {
  }

  lemma CountersCompose(t: nat, i: nat)
    ensures At(At(t, 1), i) == At(t, i + 1)
  {
  }

  lemma DistinctSlots(t: nat, i: nat, j: nat, capacity: nat)
    requires 0 < capacity && COUNTER_MODULUS % capacity == 0 && i < j < i + capacity
    ensures Slot(t, i, capacity) != Slot(t, j, capacity)
  {
    WrapKeepsSlot(t + i, COUNTER_MODULUS, capacity);
    WrapKeepsSlot(t + j, COUNTER_MODULUS, capacity);
    SlotsDiffer(t + i, j - i, capacity);
  }

  /** Some counter values within one capacity of each other share a slot. */
  ghost predicate Collision(capacity: nat)
    requires 0 < capacity
  {
    exists t: nat, i: nat, j: nat ::
      t < COUNTER_MODULUS && i < j < capacity && Slot(t, i, capacity) == Slot(t, j, capacity)
  }

  /** Any `capacity` consecutive counter values have distinct slots, wrap-around
      included, exactly when the capacity divides 2^64. */
  lemma CollisionFreeIff(capacity: nat)
    requires 0 < capacity < COUNTER_MODULUS
    ensures !Collision(capacity) <==> COUNTER_MODULUS % capacity == 0
  {
    hide Slot, At;
    if COUNTER_MODULUS % capacity == 0 {
      forall t: nat, i: nat, j: nat | t < COUNTER_MODULUS && i < j < capacity
        ensures Slot(t, i, capacity) != Slot(t, j, capacity)
      {
        DistinctSlots(t, i, j, capacity);
      }
    } else {
      WrapCollides(capacity);
    }
  }

  /** The last counter value shares its slot with one shortly after the wrap. */
  lemma WrapCollides(capacity: nat)
    requires 0 < capacity < COUNTER_MODULUS && COUNTER_MODULUS % capacity != 0
    ensures Collision(capacity)
  {
    var last := COUNTER_MODULUS - 1;
    var s := last % capacity;
    if s == capacity - 1 {
      var q := last / capacity;
      assert COUNTER_MODULUS == capacity * (q + 1) + 0;
      DivUnique(COUNTER_MODULUS, capacity, q + 1, 0);
    }
    SmallMod(s, capacity);
    assert At(last, 0) == last && At(last, s + 1) == s;
    assert Slot(last, 0, capacity) == Slot(last, s + 1, capacity);
  }

  lemma SmallMod(s: nat, capacity: nat)
    requires s < capacity
    ensures s % capacity == s
  {
  }

  // ---------------------------------------------------------------- bounded queue

  /** What publishing does to the queue: append, or when full replace the front. */
  function Put<T>(queue: seq<T>, capacity: nat, item: T): seq<T>
    requires 0 < capacity
  {
    if |queue| < capacity then queue + [item]
    else if queue == [] then [item]
    else [item] + queue[1..]
  }

  // -------------------------------------------------------------- whole histories

  datatype Op<T> = Publish(item: T) | Pop | Close

  /** A ring's life: `order[i]` is the publish number of `queue[i]`, `taken[i]` that of
      `popped[i]`, and `displaced` says that the front was put there by an overflow. Of
      the queued frames `overtaken` were already queued when such a front was last popped;
      `outOfTurn` says that one of those has been popped since. */
  datatype Life<T> = Life(
    queue: seq<T>, closed: bool, published: seq<T>, popped: seq<T>, evicted: seq<T>, order: seq<nat>, displaced: bool,
    taken: seq<nat>, overtaken: nat, outOfTurn: bool)

  function Birth<T>(): Life<T> { Life([], false, [], [], [], [], false, [], 0, false) }

  function Do<T>(l: Life<T>, capacity: nat, op: Op<T>): Life<T>
    requires 0 < capacity
  {
    match op
    case Publish(item) =>
      if l.closed then l
      else
        var l' := l.(queue := Put(l.queue, capacity, item), published := l.published + [item]);
        if |l.queue| < capacity then l'.(order := l.order + [|l.published|])
        else if l.queue == [] || l.order == [] then l'
        else l'.(evicted := l.evicted + [l.queue[0]], order := [|l.published|] + l.order[1..], displaced := true,
                 overtaken := if l.displaced || l.overtaken == 0 then l.overtaken else l.overtaken - 1)
    case Pop =>
      if l.queue == [] || l.order == [] then l
      else l.(queue := l.queue[1..], popped := l.popped + [l.queue[0]], order := l.order[1..], displaced := false,
              taken := l.taken + [l.order[0]],
              overtaken := if l.displaced then |l.queue| - 1 else if l.overtaken == 0 then 0 else l.overtaken - 1,
              outOfTurn := l.outOfTurn || (!l.displaced && l.overtaken > 0))
    case Close => l.(closed := true)
  }

  function DoAll<T>(l: Life<T>, capacity: nat, ops: seq<Op<T>>): Life<T>
    requires 0 < capacity
    decreases |ops|
  {
    if ops == [] then l else DoAll(Do(l, capacity, ops[0]), capacity, ops[1..])
  }

  predicate Increasing(order: seq<nat>) { forall i, j | 0 <= i < j < |order| :: order[i] < order[j] }

  ghost predicate Indexed<T>(l: Life<T>, capacity: nat) {
    && |l.order| == |l.queue| <= capacity
    && forall i | 0 <= i < |l.order| :: l.order[i] < |l.published| && l.published[l.order[i]] == l.queue[i]
  }

  ghost predicate OrderOk<T>(l: Life<T>, capacity: nat) {
    && Indexed(l, capacity)
    && (l.queue != [] ==> Increasing(l.order[1..]))
    && (!l.displaced ==> Increasing(l.order))
    && (l.displaced ==> 0 < |l.queue| == capacity && l.order[0] == |l.published| - 1
                        && forall i | 1 <= i < |l.order| :: l.order[i] < |l.published| - 1)
  }

  ghost predicate Accounted<T>(l: Life<T>) {
    && |l.order| == |l.queue|
    && |l.published| == |l.popped| + |l.queue| + |l.evicted|
    && (l.evicted == [] ==> l.published == l.popped + l.queue)
  }

  ghost predicate SameItems<T>(l: Life<T>) {
    && |l.order| == |l.queue|
    && multiset(l.published) == multiset(l.popped) + multiset(l.queue) + multiset(l.evicted)
  }

  lemma IndexedStep<T>(l: Life<T>, capacity: nat, op: Op<T>)
    requires 0 < capacity && Indexed(l, capacity)
    ensures Indexed(Do(l, capacity, op), capacity)
  {
  }

  lemma IncreasingTail(order: seq<nat>)
    requires order != [] && Increasing(order)
    ensures Increasing(order[1..])
  {
  }

  lemma IncreasingAppend(order: seq<nat>, n: nat)
    requires Increasing(order) && forall i | 0 <= i < |order| :: order[i] < n
    ensures Increasing(order + [n])
  {
  }

  lemma OrderStep<T>(l: Life<T>, capacity: nat, op: Op<T>)
    requires 0 < capacity && OrderOk(l, capacity)
    ensures OrderOk(Do(l, capacity, op), capacity)
  {
    IndexedStep(l, capacity, op);
    var l', n := Do(l, capacity, op), |l.published|;
    if op.Publish? && !l.closed && |l.queue| < capacity {
      IncreasingAppend(l.order, n);
      IncreasingTail(l.order + [n]);
    } else if op.Publish? && !l.closed {
      assert l'.order[1..] == l.order[1..];
    } else if op.Pop? && |l.queue| > 1 {
      IncreasingTail(l.order[1..]);
    }
  }

  lemma AccountedStep<T>(l: Life<T>, capacity: nat, op: Op<T>)
    requires 0 < capacity && Accounted(l)
    ensures Accounted(Do(l, capacity, op))
  {
    if l.queue != [] {
      assert (l.popped + [l.queue[0]]) + l.queue[1..] == l.popped + l.queue;
    }
    if op.Publish? {
      assert l.popped + (l.queue + [op.item]) == (l.popped + l.queue) + [op.item];
    }
  }

  lemma SameItemsStep<T>(l: Life<T>, capacity: nat, op: Op<T>)
    requires 0 < capacity && SameItems(l) && |l.queue| <= capacity
    ensures SameItems(Do(l, capacity, op))
  {
    var p, q, e := multiset(l.popped), multiset(l.queue), multiset(l.evicted);
    if op.Publish? && !l.closed {
      if |l.queue| < capacity {
        Regroup(p, q, e, op.item);
      } else {
        OverflowSwaps(l, capacity, op.item);
      }
    } else if op.Pop? && l.queue != [] {
      FirstOut(l.queue);
    }
  }

  lemma OverflowSwaps<T>(l: Life<T>, capacity: nat, item: T)
    requires 0 < capacity && SameItems(l) && |l.queue| == capacity && !l.closed
    ensures SameItems(Do(l, capacity, Publish(item)))
  {
    var rest := l.queue[1..];
    FirstOut(l.queue);
    FirstOut([item] + rest);
    assert ([item] + rest)[1..] == rest;
    Regroup(multiset(l.popped), multiset(rest), multiset(l.evicted) + multiset{l.queue[0]}, item);
  }

  lemma Regroup<T>(p: multiset<T>, q: multiset<T>, e: multiset<T>, x: T)
    ensures (p + q + e) + multiset{x} == p + (q + multiset{x}) + e
    ensures (p + q + e) + multiset{x} == p + (multiset{x} + q) + e
  {
  }

  lemma FirstOut<T>(s: seq<T>)
    requires s != []
    ensures multiset(s) == multiset{s[0]} + multiset(s[1..])
  {
    assert s == [s[0]] + s[1..];
  }

  lemma {:induction false} LifeInvariant<T>(l: Life<T>, capacity: nat, ops: seq<Op<T>>)
    requires 0 < capacity && OrderOk(l, capacity) && Accounted(l) && SameItems(l)
    ensures var e := DoAll(l, capacity, ops); OrderOk(e, capacity) && Accounted(e) && SameItems(e)
    decreases |ops|
  {
    hide Accounted, SameItems, Do;
    if ops != [] {
      SameItemsStep(l, capacity, ops[0]);
      OrderStep(l, capacity, ops[0]);
      AccountedStep(l, capacity, ops[0]);
      LifeInvariant(Do(l, capacity, ops[0]), capacity, ops[1..]);
    }
  }

  /** Every frame published before close is popped, queued or evicted, exactly once;
      without an eviction the ring is an exact FIFO; and whatever was evicted, the
      frames behind the front keep their publish order. */
  lemma RingConserves<T>(capacity: nat, ops: seq<Op<T>>)
    requires 0 < capacity
    ensures var l := DoAll(Birth<T>(), capacity, ops);
            && |l.published| == |l.popped| + |l.queue| + |l.evicted|
            && multiset(l.published) == multiset(l.popped) + multiset(l.queue) + multiset(l.evicted)
            && (l.evicted == [] ==> l.published == l.popped + l.queue)
            && |l.order| == |l.queue| && (l.queue != [] ==> Increasing(l.order[1..]))
            && (forall i | 0 <= i < |l.queue| :: l.order[i] < |l.published| && l.published[l.order[i]] == l.queue[i])
  {
    LifeInvariant(Birth<T>(), capacity, ops);
  }

  /** The queue as a whole is in publish order exactly when its front was not put there
      by an overflow: the overflowing frame overtakes everything still queued. */
  lemma OverflowBreaksOrderIff<T>(capacity: nat, ops: seq<Op<T>>)
    requires 0 < capacity
    ensures var l := DoAll(Birth<T>(), capacity, ops);
            |l.queue| >= 2 ==> (Increasing(l.order) <==> !l.displaced)
  {
    LifeInvariant(Birth<T>(), capacity, ops);
    var l := DoAll(Birth<T>(), capacity, ops);
    if l.displaced && |l.queue| >= 2 {
      assert l.order[1] < l.order[0];
    }
  }

  /** A second overflow in a row evicts the previous newcomer, not the oldest frame. */
  lemma SecondOverflowEvictsNewest<T>(capacity: nat, ops: seq<Op<T>>, item: T)
    requires 0 < capacity
    ensures var l := DoAll(Birth<T>(), capacity, ops);
            l.displaced && !l.closed ==>
              l.published != [] && Do(l, capacity, Publish(item)).evicted
                  == l.evicted + [l.published[|l.published| - 1]]
  {
    LifeInvariant(Birth<T>(), capacity, ops);
  }

  // --------------------------------------------------------- what the consumer sees

  predicate AllUnder(ns: seq<nat>, n: nat) { forall m <- ns :: m < n }

  /** Popped frames have the publish numbers of `taken`. */
  ghost predicate TakenOk<T>(l: Life<T>) {
    && |l.taken| == |l.popped|
    && forall i | 0 <= i < |l.taken| :: l.taken[i] < |l.published| && l.published[l.taken[i]] == l.popped[i]
  }

  function Front<T>(l: Life<T>): nat { if l.displaced then 1 else 0 }

  /** While the consumer has seen publish order: behind a displaced front the overtaken
      frames come first and are older than the last one popped; all others are newer. */
  ghost predicate InTurn<T>(l: Life<T>) {
    && Increasing(l.taken) && AllUnder(l.taken, |l.published|) && |l.order| == |l.queue|
    && Front(l) + l.overtaken <= |l.queue|
    && (l.displaced ==> AllUnder(l.taken, l.order[0]))
    && (forall i | Front(l) <= i < Front(l) + l.overtaken :: l.taken != [] && l.order[i] < l.taken[|l.taken| - 1])
    && (forall i | Front(l) + l.overtaken <= i < |l.order| :: AllUnder(l.taken, l.order[i]))
  }

  ghost predicate TurnOk<T>(l: Life<T>) { if l.outOfTurn then !Increasing(l.taken) else InTurn(l) }

  lemma TakenStep<T>(l: Life<T>, capacity: nat, op: Op<T>)
    requires 0 < capacity && Indexed(l, capacity) && TakenOk(l)
    ensures TakenOk(Do(l, capacity, op))
  {
    hide Put;
  }

  lemma UnderMore(taken: seq<nat>, x: nat, n: nat)
    requires AllUnder(taken, n) && x < n
    ensures AllUnder(taken + [x], n)
  {
  }

  lemma UnderWeaken(taken: seq<nat>, m: nat, n: nat)
    requires AllUnder(taken, m) && m <= n
    ensures AllUnder(taken, n)
  {
  }

  lemma IncreasingMore(taken: seq<nat>, x: nat)
    requires Increasing(taken) && AllUnder(taken, x)
    ensures Increasing(taken + [x])
  {
    assert forall i | 0 <= i < |taken| :: taken[i] in taken;
  }

  lemma IncreasingPrefix(taken: seq<nat>, x: nat)
    requires Increasing(taken + [x])
    ensures Increasing(taken)
  {
    var all := taken + [x];
    assert forall i | 0 <= i < |taken| :: all[i] == taken[i];
  }

  lemma PublishKeepsTurn<T>(l: Life<T>, capacity: nat, item: T)
    requires 0 < capacity && OrderOk(l, capacity) && InTurn(l) && !l.closed
    ensures InTurn(Do(l, capacity, Publish(item)))
  {
    hide Increasing, AllUnder;
    UnderWeaken(l.taken, |l.published|, |l.published| + 1);
  }

  lemma PopDisplaced<T>(l: Life<T>, capacity: nat)
    requires 0 < capacity && OrderOk(l, capacity) && InTurn(l) && l.queue != [] && l.displaced
    ensures InTurn(Do(l, capacity, Pop))
  {
    IncreasingMore(l.taken, l.order[0]);
    UnderMore(l.taken, l.order[0], |l.published|);
    hide Increasing, AllUnder;
  }

  lemma PopInTurn<T>(l: Life<T>, capacity: nat)
    requires 0 < capacity && OrderOk(l, capacity) && InTurn(l) && l.queue != [] && !l.displaced && l.overtaken == 0
    ensures InTurn(Do(l, capacity, Pop))
  {
    IncreasingMore(l.taken, l.order[0]);
    UnderMore(l.taken, l.order[0], |l.published|);
    forall i | 1 <= i < |l.order| ensures AllUnder(l.taken + [l.order[0]], l.order[i]) {
      UnderMore(l.taken, l.order[0], l.order[i]);
    }
    hide Increasing, AllUnder;
  }

  lemma PopOutOfTurn<T>(l: Life<T>, capacity: nat)
    requires 0 < capacity && InTurn(l) && l.queue != [] && !l.displaced && l.overtaken > 0
    ensures !Increasing(Do(l, capacity, Pop).taken)
  {
    var taken := Do(l, capacity, Pop).taken;
    assert taken[|l.taken| - 1] > taken[|l.taken|];
  }

  lemma TurnStep<T>(l: Life<T>, capacity: nat, op: Op<T>)
    requires 0 < capacity && OrderOk(l, capacity) && TurnOk(l)
    ensures TurnOk(Do(l, capacity, op))
  {
    var l' := Do(l, capacity, op);
    if l.outOfTurn {
      if op.Pop? && l.queue != [] && Increasing(l'.taken) {
        IncreasingPrefix(l.taken, l.order[0]);
      }
    } else if op.Publish? && !l.closed {
      PublishKeepsTurn(l, capacity, op.item);
    } else if op.Pop? && l.queue != [] {
      if l.displaced {
        PopDisplaced(l, capacity);
      } else if l.overtaken == 0 {
        PopInTurn(l, capacity);
      } else {
        PopOutOfTurn(l, capacity);
      }
    }
    hide OrderOk, Increasing, AllUnder, Put;
  }

  lemma {:induction false} TurnRun<T>(l: Life<T>, capacity: nat, ops: seq<Op<T>>)
    requires 0 < capacity && OrderOk(l, capacity) && TakenOk(l) && TurnOk(l)
    ensures TakenOk(DoAll(l, capacity, ops)) && TurnOk(DoAll(l, capacity, ops))
    decreases |ops|
  {
    hide OrderOk, TakenOk, TurnOk, Do;
    if ops != [] {
      OrderStep(l, capacity, ops[0]);
      OrderIndexed(l, capacity);
      TakenStep(l, capacity, ops[0]);
      TurnStep(l, capacity, ops[0]);
      TurnRun(Do(l, capacity, ops[0]), capacity, ops[1..]);
    }
  }

  lemma OrderIndexed<T>(l: Life<T>, capacity: nat)
    requires OrderOk(l, capacity)
    ensures Indexed(l, capacity)
  {
  }

  /** Exactly when the consumer sees publish order: as long as it never pops a frame that
      was already queued when it popped an overflow's newcomer from the front. */
  lemma PoppedInOrderIff<T>(capacity: nat, ops: seq<Op<T>>)
    requires 0 < capacity
    ensures var l := DoAll(Birth<T>(), capacity, ops);
            && |l.taken| == |l.popped|
            && (forall i | 0 <= i < |l.taken| :: l.taken[i] < |l.published| && l.published[l.taken[i]] == l.popped[i])
            && (Increasing(l.taken) <==> !l.outOfTurn)
  {
    TurnRun(Birth<T>(), capacity, ops);
    hide DoAll, Increasing, AllUnder;
  }

  class SpscRing<T> {
    const capacity: nat
    const slots: array<Option<T>>
    var head: nat
    var tail: nat
    var dropped: nat
    var closed: bool
    ghost var queue: seq<T>

    ghost predicate Valid()
      reads this, slots
    {
      && 0 < capacity < COUNTER_MODULUS && COUNTER_MODULUS % capacity == 0 && slots.Length == capacity
      && tail < COUNTER_MODULUS && |queue| <= capacity && head == At(tail, |queue|)
      && forall i | 0 <= i < |queue| :: slots[Slot(tail, i, capacity)] == Some(queue[i])
    }

    constructor (capacity: nat)
      requires 0 < capacity < COUNTER_MODULUS && COUNTER_MODULUS % capacity == 0
      ensures Valid() && fresh(slots) && this.capacity == capacity && queue == [] && dropped == 0 && !closed
    {
      this.capacity := capacity;
      slots := new Option<T>[capacity](_ => None);
      head, tail, dropped, closed := 0, 0, 0, false;
      queue := [];
    }

    /** Items waiting: the difference of the counters, modulo 2^64. */
    method Size() returns (n: nat)
      requires Valid()
      ensures n == |queue|
    {
      Counters(tail, |queue|);
      hide At;
      n := (head + COUNTER_MODULUS - tail) % COUNTER_MODULUS;
    }

    method Publish(item: Option<T>)
      requires Valid()
      modifies this, slots
      ensures Valid() && closed == old(closed)
      ensures closed || item.None? ==> queue == old(queue) && dropped == old(dropped)
      ensures !closed && item.Some? ==> queue == Put(old(queue), capacity, item.value)
      ensures !closed && item.Some? ==>
        dropped == if |old(queue)| < capacity then old(dropped) else Increment(old(dropped))
    {
      hide At, Index;
      if closed || item.None? {
        return;
      }
      var n := Size();
      Counters(tail, n);
      forall i | 0 < i < n ensures Slot(tail, 0, capacity) != Slot(tail, i, capacity) {
        DistinctSlots(tail, 0, i, capacity);
      }
      if n < capacity {
        forall i | 0 <= i < n ensures Slot(tail, i, capacity) != Slot(tail, n, capacity) {
          DistinctSlots(tail, i, n, capacity);
        }
        slots[Index(head, capacity)] := item;
        head := Increment(head);
        queue := queue + [item.value];
      } else {
        slots[Index(tail, capacity)] := item;
        dropped := Increment(dropped);
        queue := [item.value] + queue[1..];
      }
    }

    /** `pop` returns once the ring is non-empty or closed. */
    method Pop() returns (item: Option<T>)
      requires Valid() && (queue != [] || closed)
      modifies this
      ensures Valid() && closed == old(closed) && dropped == old(dropped)
      ensures old(queue) == [] ==> item == None && queue == []
      ensures old(queue) != [] ==> item == Some(old(queue)[0]) && queue == old(queue)[1..]
    {
      hide At, Index;
      Counters(tail, |queue|);
      if head == tail {
        return None;
      }
      Counters(tail, 1);
      forall i | 0 <= i < |queue| ensures Slot(At(tail, 1), i, capacity) == Slot(tail, i + 1, capacity) {
        CountersCompose(tail, i);
      }
      CountersCompose(tail, |queue| - 1);
      item := slots[Index(tail, capacity)];
      tail := Increment(tail);
      queue := queue[1..];
    }

    method Close()
      requires Valid()
      modifies this`closed
      ensures Valid() && closed
    {
      closed := true;
    }
  }
}
