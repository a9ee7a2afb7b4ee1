/** The configuration values the ring and the outbox depend on. */
module Config {
  import opened Keys
  import opened Numbers
  import Ring
  import opened Reactor

  predicate IsDigit(c: char) { '0' <= c <= '9' }

  function DigitValue(c: char): nat
    requires IsDigit(c)
  {
    c as int - '0' as int
  }

  function DigitsValue(s: string): nat
    requires forall c <- s :: IsDigit(c)
  {
    if s == [] then 0 else 10 * DigitsValue(s[..|s| - 1]) + DigitValue(s[|s| - 1])
  }

  /** `std::from_chars` into an unsigned 64-bit value, required to consume everything. */
  function ParseU64(s: string): Option<nat> {
    if s != [] && (forall c <- s :: IsDigit(c)) && DigitsValue(s) <= MAX_U64 then Some(DigitsValue(s)) else None
  }

  /** Decimal digits read back, up to 64 bits and no further; anything else is refused. */
  lemma ParseExact(n: nat, s: string)
    ensures ParseU64(Decimal(n)) == if n <= MAX_U64 then Some(n) else None
    ensures (s == [] || exists c <- s :: !('0' <= c <= '9')) ==> ParseU64(s) == None
  {
    DecimalValue(n);
    hide Decimal, DigitsValue;
  }

  lemma {:induction false} DecimalValue(n: nat)
    ensures DigitsValue(Decimal(n)) == n
  {
    if n >= 10 {
      var d := Decimal(n);
      assert d[..|d| - 1] == Decimal(n / 10) && d[|d| - 1] == Digit(n % 10);
      DecimalValue(n / 10);
    }
  }

  // -------------------------------------------------------------------- ring slots

  /** Bitwise and. */
  function And(a: nat, b: nat): nat
    decreases a
  {
    if a == 0 || b == 0 then 0 else 2 * And(a / 2, b / 2) + (a % 2) * (b % 2)
  }

  function ParseRingSlots(value: string, fallback: nat): nat {
    var parsed := ParseU64(value);
    if parsed.None? || parsed.value < 2 || And(parsed.value, parsed.value - 1) != 0 then fallback else parsed.value
  }

  lemma {:induction false} AndSelf(n: nat)
    ensures And(n, n) == n
  {
    if n > 0 {
      AndSelf(n / 2);
      AndUnfolds(n);
    }
    hide And;
  }

  lemma AndUnfolds(n: nat)
    requires n > 0
    ensures And(n, n) == 2 * And(n / 2, n / 2) + n % 2
  {
    LastBit(n % 2);
  }

  lemma LastBit(b: nat)
    requires b < 2
    ensures b * b == b
  {
    if b == 0 {
      assert b * b == 0 * 0;
    } else {
      assert b == 1;
    }
  }

  ghost predicate IsPow2(n: nat) { exists k: nat :: n == Pow2(k) }

  lemma DoublePow2(m: nat)
    requires m >= 1
    ensures IsPow2(2 * m) <==> IsPow2(m)
    ensures !IsPow2(2 * m + 1)
  {
    forall k: nat ensures (2 * m == Pow2(k) ==> IsPow2(m)) && 2 * m + 1 != Pow2(k) {
      if k > 0 && 2 * m == Pow2(k) {
        assert m == Pow2(k - 1);
      }
    }
    if IsPow2(m) {
      var k: nat :| m == Pow2(k);
      assert 2 * m == Pow2(k + 1);
    }
  }

  /** The single-bit test is exact. */
  lemma {:induction false} SingleBit(n: nat)
    requires n >= 1
    ensures And(n, n - 1) == 0 <==> IsPow2(n)
  {
    var m := n / 2;
    if n == 1 {
      assert n == Pow2(0);
    } else if n % 2 == 0 {
      SingleBit(m);
      DoublePow2(m);
      assert n - 1 == 2 * (m - 1) + 1;
      assert And(n, n - 1) == 2 * And(m, m - 1);
    } else {
      AndSelf(m);
      DoublePow2(m);
      assert And(n, n - 1) == 2 * And(m, m) == 2 * m;
    }
  }

  /** The accepted slot counts are the powers of two from 2 to 2^63, and only those: the
      capacities with which the ring survives the wrap of its counters. */
  lemma RingSlotsExact(value: string, fallback: nat)
    ensures var accepted := ParseU64(value).Some? && ParseU64(value).value >= 2
                            && IsPow2(ParseU64(value).value);
            && ParseRingSlots(value, fallback) == (if accepted then ParseU64(value).value else fallback)
            && (accepted ==> var c := ParseRingSlots(value, fallback);
                             c < Ring.COUNTER_MODULUS && Ring.COUNTER_MODULUS % c == 0 && !Ring.Collision(c))
  {
    var parsed := ParseU64(value);
    if parsed.Some? && parsed.value >= 2 {
      SingleBit(parsed.value);
      if IsPow2(parsed.value) {
        var k: nat :| parsed.value == Pow2(k);
        Pow64();
        if k >= 64 {
          Pow2Grows(64, k);
        }
        Pow2Splits(k, 64 - k);
        DivUnique(Ring.COUNTER_MODULUS, parsed.value, Pow2(64 - k), 0);
        Ring.CollisionFreeIff(parsed.value);
      }
    }
  }

  // ------------------------------------------------------------------- outbox trio

  datatype Outbox = Outbox(maxFrames: nat, hwm: real, lwm: real)

  const DEFAULT_OUTBOX := Outbox(1024, 0.75, 0.25)

  datatype Setting<T> = Absent | Given(value: T)

  function ParseOutboxMaxFrames(value: string, fallback: nat): nat {
    var parsed := ParseU64(value);
    if parsed.None? || parsed.value == 0 then fallback else parsed.value
  }

  /** `number` is what `std::stod` made of the whole text, if anything. */
  function ParseWaterMark(number: Option<real>, minVal: real, maxVal: real, fallback: real): real {
    if number.Some? && minVal < number.value < maxVal then number.value else fallback
  }

  predicate GoodFrames(s: Setting<string>) { s.Given? ==> ParseU64(s.value).Some? && ParseU64(s.value).value > 0 }

  predicate GoodMark(s: Setting<Option<real>>) { s.Given? ==> s.value.Some? && 0.0 < s.value.value < 1.0 }

  function Mark(s: Setting<Option<real>>, default: real): real {
    if s.Given? && s.value.Some? then s.value.value else default
  }

  /** The block of `loadConfig` that reads the three outbox keys: all three are kept, or
      one bad or crossed value sends the whole trio back to the defaults. */
  method LoadOutbox(frames: Setting<string>, hwmKey: Setting<Option<real>>, lwmKey: Setting<Option<real>>)
    returns (o: Outbox, fellBack: bool)
    ensures fellBack <==> !(GoodFrames(frames) && GoodMark(hwmKey) && GoodMark(lwmKey)
                            && Mark(lwmKey, DEFAULT_OUTBOX.lwm) < Mark(hwmKey, DEFAULT_OUTBOX.hwm))
    ensures fellBack ==> o == Outbox(1024, 0.75, 0.25)
    ensures !fellBack ==>
      && o.maxFrames == (if frames.Given? then ParseU64(frames.value).value else DEFAULT_OUTBOX.maxFrames)
      && o.hwm == Mark(hwmKey, DEFAULT_OUTBOX.hwm) && o.lwm == Mark(lwmKey, DEFAULT_OUTBOX.lwm)
    ensures 0 < o.maxFrames < SIZE_MODULUS && 0.0 < o.lwm < o.hwm < 1.0
  {
    o, fellBack := DEFAULT_OUTBOX, false;
    var invalid := false;
    if frames.Given? {
      var parsed := ParseOutboxMaxFrames(frames.value, 0);
      if parsed != 0 {
        o := o.(maxFrames := parsed);
      } else {
        invalid := true;
      }
    }
    var hwm, lwm := o.hwm, o.lwm;
    if hwmKey.Given? {
      var parsed := ParseWaterMark(hwmKey.value, 0.0, 1.0, -1.0);
      if parsed > 0.0 {
        hwm := parsed;
      } else {
        invalid := true;
      }
    }
    if lwmKey.Given? {
      var parsed := ParseWaterMark(lwmKey.value, 0.0, 1.0, -1.0);
      if parsed > 0.0 {
        lwm := parsed;
      } else {
        invalid := true;
      }
    }
    if invalid || !(lwm < hwm) {
      o, fellBack := DEFAULT_OUTBOX, true;
    } else {
      o := o.(hwm := hwm, lwm := lwm);
    }
  }
}
