/** The optional pacing ceiling of a reliable sender: a token bucket of at most one
    second's worth of frames. Times and tokens are reals. */
module Pacing {

  /** `lastRefill` is the clock's epoch, zero, until the first paced call. */
  datatype Bucket = Bucket(tokens: real, lastRefill: real)

  const UNUSED := Bucket(0.0, 0.0)

  datatype Passage = Passage(bucket: Bucket, passes: bool)

  function MinReal(a: real, b: real): real { if a < b then a else b }

  /** What the time between two readings is worth, in frames. */
  function Earned(from: real, to: real, rate: nat): real { (to - from) * (rate as real) }

  lemma EarnedAdds(a: real, b: real, c: real, rate: nat)
    ensures Earned(a, b, rate) + Earned(b, c, rate) == Earned(a, c, rate) && Earned(a, a, rate) == 0.0
    ensures b <= c ==> Earned(a, b, rate) <= Earned(a, c, rate)
  {
    assert b <= c ==> 0.0 <= (c - b) * (rate as real);
  }

  /** The bucket a call at time `now` finds: full on its first use, else refilled as soon as
      a token has been earned, up to the rate. */
  function Refilled(b: Bucket, rate: nat, now: real): Bucket {
    var full := rate as real;
    var started := if b.lastRefill == 0.0 then Bucket(full, now) else b;
    var refill := Earned(started.lastRefill, now, rate);
    if refill >= 1.0 then Bucket(MinReal(started.tokens + refill, full), now) else started
  }

  /** One call at time `now` under a limit of `rate` frames per second, 0 for none. */
  function Call(b: Bucket, rate: nat, now: real): Passage {
    if rate == 0 then Passage(b, true)
    else
      var filled := Refilled(b, rate, now);
      if filled.tokens < 1.0 then Passage(filled, false) else Passage(filled.(tokens := filled.tokens - 1.0), true)
  }

  function Calls(b: Bucket, rate: nat, times: seq<real>): Bucket
    decreases |times|
  {
    if times == [] then b else Calls(Call(b, rate, times[0]).bucket, rate, times[1..])
  }

  /** How many of the calls pass. */
  function Passed(b: Bucket, rate: nat, times: seq<real>): nat
    decreases |times|
  {
    if times == [] then 0
    else (if Call(b, rate, times[0]).passes then 1 else 0) + Passed(Call(b, rate, times[0]).bucket, rate, times[1..])
  }

  /** The clock is monotone and reads past its epoch. */
  predicate Clock(from: real, times: seq<real>) {
    && 0.0 <= from && (forall t <- times :: 0.0 < t && from <= t)
    && forall i, j | 0 <= i < j < |times| :: times[i] <= times[j]
  }

  /** At time `now` the bucket holds 0 to `rate` tokens and was not refilled later. */
  predicate Proper(b: Bucket, rate: nat, now: real) {
    0.0 <= b.tokens <= rate as real && 0.0 <= b.lastRefill <= now
  }

  lemma CallProper(b: Bucket, rate: nat, before: real, now: real)
    requires rate > 0 && Proper(b, rate, before) && before <= now && 0.0 < now
    ensures var c := Call(b, rate, now);
            && Proper(c.bucket, rate, now) && 0.0 < c.bucket.lastRefill && Earned(c.bucket.lastRefill, now, rate) < 1.0
  {
    hide Earned;
    EarnedAdds(now, now, now, rate);
    EarnedAdds(b.lastRefill, b.lastRefill, now, rate);
  }

  lemma ClockTail(from: real, times: seq<real>)
    requires times != [] && Clock(from, times)
    ensures Clock(times[0], times[1..]) && from <= times[0] && 0.0 < times[0]
  {
    assert times[0] in times;
    forall t | t in times[1..] ensures 0.0 < t && times[0] <= t {
      var i :| 0 <= i < |times| - 1 && times[1..][i] == t;
      assert times[i + 1] == t && t in times;
    }
  }

  /** The tokens stay between 0 and the rate over every run. */
  lemma {:induction false} TokensBounded(b: Bucket, rate: nat, from: real, times: seq<real>)
    requires rate > 0 && Proper(b, rate, from) && Clock(from, times)
    ensures Proper(Calls(b, rate, times), rate, if times == [] then from else times[|times| - 1])
    decreases |times|
  {
    if times != [] {
      ClockTail(from, times);
      CallProper(b, rate, from, times[0]);
      TokensBounded(Call(b, rate, times[0]).bucket, rate, times[0], times[1..]);
    }
  }

  /** Tokens are only ever paid for by the time since the last refill. */
  lemma CallSpends(b: Bucket, rate: nat, before: real, now: real)
    requires rate > 0 && Proper(b, rate, before) && 0.0 < b.lastRefill && before <= now
    ensures var c := Call(b, rate, now);
            (if c.passes then 1.0 else 0.0) + c.bucket.tokens
                <= b.tokens + Earned(b.lastRefill, c.bucket.lastRefill, rate)
  {
    hide Earned;
    EarnedAdds(b.lastRefill, b.lastRefill, b.lastRefill, rate);
  }

  lemma {:induction false} RunSpends(b: Bucket, rate: nat, from: real, times: seq<real>)
    requires rate > 0 && Proper(b, rate, from) && 0.0 < b.lastRefill && Clock(from, times)
    ensures var end := Calls(b, rate, times);
            Passed(b, rate, times) as real + end.tokens <= b.tokens + Earned(b.lastRefill, end.lastRefill, rate)
    decreases |times|
  {
    hide Earned, Call, Clock;
    if times == [] {
      EarnedAdds(b.lastRefill, b.lastRefill, b.lastRefill, rate);
    } else {
      ClockTail(from, times);
      CallProper(b, rate, from, times[0]);
      CallSpends(b, rate, from, times[0]);
      var next := Call(b, rate, times[0]).bucket;
      RunSpends(next, rate, times[0], times[1..]);
      EarnedAdds(b.lastRefill, next.lastRefill, Calls(next, rate, times[1..]).lastRefill, rate);
    }
  }

  /** Rate ceiling: over any stretch of calls spanning time T, fewer than
      rate * T + rate + 1 pass. */
  lemma RateCeiling(rate: nat, earlier: seq<real>, window: seq<real>)
    requires rate > 0 && window != [] && Clock(0.0, earlier + window)
    ensures Passed(Calls(UNUSED, rate, earlier), rate, window) as real
          < (window[|window| - 1] - window[0]) * (rate as real) + rate as real + 1.0
  {
    hide Calls, Passed, Clock;
    ClockSplits(0.0, earlier, window);
    var from := if earlier == [] then 0.0 else earlier[|earlier| - 1];
    TokensBounded(UNUSED, rate, 0.0, earlier);
    WindowSpends(Calls(UNUSED, rate, earlier), rate, from, window);
  }

  lemma ClockSplits(from: real, a: seq<real>, b: seq<real>)
    requires Clock(from, a + b)
    ensures Clock(from, a) && Clock(if a == [] then from else a[|a| - 1], b)
  {
    var all := a + b;
    assert forall t <- a :: t in all;
    assert a != [] ==> a[|a| - 1] in a;
    assert forall i | 0 <= i < |a| :: all[i] == a[i];
    forall i | 0 <= i < |b| ensures 0.0 < b[i] && (if a == [] then from else a[|a| - 1]) <= b[i] {
      assert all[|a| + i] == b[i] && b[i] in all;
    }
    forall i, j | 0 <= i < j < |b| ensures b[i] <= b[j] {
      assert all[|a| + i] == b[i] && all[|a| + j] == b[j];
    }
  }

  lemma WindowSpends(b: Bucket, rate: nat, from: real, window: seq<real>)
    requires rate > 0 && window != [] && Proper(b, rate, from) && Clock(from, window)
    ensures Passed(b, rate, window) as real < Earned(window[0], window[|window| - 1], rate) + rate as real + 1.0
  {
    hide Earned, Call, Clock;
    var first, last := window[0], window[|window| - 1];
    ClockTail(from, window);
    CallProper(b, rate, from, first);
    FirstCall(b, rate, from, first);
    var next := Call(b, rate, first).bucket;
    RunSpends(next, rate, first, window[1..]);
    TokensBounded(next, rate, first, window[1..]);
    var end := Calls(next, rate, window[1..]);
    assert end.lastRefill <= last;
    EarnedAdds(next.lastRefill, first, last, rate);
    EarnedAdds(next.lastRefill, end.lastRefill, last, rate);
  }

  /** The first call leaves what it passed and what is left within one full bucket. */
  lemma FirstCall(b: Bucket, rate: nat, from: real, now: real)
    requires rate > 0 && Proper(b, rate, from) && from <= now && 0.0 < now
    ensures var c := Call(b, rate, now); (if c.passes then 1.0 else 0.0) + c.bucket.tokens <= rate as real
  {
  }

  /** A call at least 1/rate after the last refill always passes. */
  lemma RestedCallPasses(b: Bucket, rate: nat, now: real)
    requires rate > 0 && 0.0 <= b.tokens && 0.0 < b.lastRefill
    requires b.lastRefill + 1.0 / (rate as real) <= now
    ensures Call(b, rate, now).passes
  {
    var share := 1.0 / (rate as real);
    assert 1.0 <= Earned(b.lastRefill, now, rate) by {
      EarnedAdds(b.lastRefill, b.lastRefill + share, now, rate);
      assert Earned(b.lastRefill, b.lastRefill + share, rate) == share * (rate as real) == 1.0;
    }
    hide Earned;
  }

  /** What the bucket holds is what a burst gets: of `n` calls at one instant exactly as many
      pass as there are whole tokens after the refill. */
  lemma {:induction false} BurstExact(b: Bucket, rate: nat, now: real, n: nat)
    requires rate > 0 && 0.0 < b.lastRefill && 0.0 <= b.tokens && Earned(b.lastRefill, now, rate) < 1.0
    ensures var whole := b.tokens.Floor;
            Passed(b, rate, seq(n, _ => now)) == if n <= whole then n else whole
    decreases n
  {
    hide Earned;
    if n > 0 {
      assert seq(n, _ => now)[1..] == seq(n - 1, _ => now);
      BurstExact(Call(b, rate, now).bucket, rate, now, n - 1);
    }
  }

  /** The floor beside the ceiling: after at least a second without calls the bucket is full,
      and of `n` calls at one instant the first `rate` pass and no more. */
  lemma RestedBurst(b: Bucket, rate: nat, now: real, n: nat)
    requires rate > 0 && Proper(b, rate, now) && 0.0 < b.lastRefill && b.lastRefill + 1.0 <= now
    ensures Passed(b, rate, seq(n, _ => now)) == if n <= rate then n else rate
  {
    if n > 0 {
      SecondEarns(b.lastRefill, now, rate);
      EarnedAdds(now, now, now, rate);
      var first := Call(b, rate, now);
      assert first.passes && first.bucket == Bucket(rate as real - 1.0, now);
      assert seq(n, _ => now)[1..] == seq(n - 1, _ => now);
      BurstExact(first.bucket, rate, now, n - 1);
    }
  }

  lemma SecondEarns(from: real, to: real, rate: nat)
    requires rate > 0 && from + 1.0 <= to
    ensures Earned(from, to, rate) >= rate as real >= 1.0
  {
    EarnedAdds(from, from + 1.0, to, rate);
    assert (from + 1.0) - from == 1.0 && Earned(from, from + 1.0, rate) == 1.0 * (rate as real);
  }

  /** A refused call costs nothing, a call that passes costs one token. */
  lemma CallCosts(b: Bucket, rate: nat, now: real)
    requires rate > 0
    ensures var c, filled := Call(b, rate, now), Refilled(b, rate, now);
            && (c.passes <==> filled.tokens >= 1.0)
            && c.bucket.lastRefill == filled.lastRefill
            && c.bucket.tokens == filled.tokens - if c.passes then 1.0 else 0.0
  {
  }

  /** The bucket starts full: the first call ever passes, and of `n` at that instant the first
      `rate` do and no more. */
  lemma FirstEverPasses(rate: nat, now: real, n: nat)
    ensures Call(UNUSED, rate, now).passes
    ensures rate > 0 && 0.0 < now ==> Passed(UNUSED, rate, seq(n, _ => now)) == if n <= rate then n else rate
  {
    EarnedAdds(now, now, now, rate);
    if rate > 0 && 0.0 < now && n > 0 {
      var first := Call(UNUSED, rate, now);
      assert first.passes && first.bucket == Bucket(rate as real - 1.0, now);
      assert seq(n, _ => now)[1..] == seq(n - 1, _ => now);
      BurstExact(first.bucket, rate, now, n - 1);
    }
  }
}
