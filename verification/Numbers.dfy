/** Bytes, 64-bit limits and a little arithmetic. */
module Numbers {

  newtype byte = x: int | 0 <= x < 256

  const MAX_U64: nat := 0xFFFF_FFFF_FFFF_FFFF

  lemma MultipleBounds(c: nat, d: int)
    ensures (d >= 1 ==> c * d >= c) && (d <= -1 ==> c * d <= -(c as int)) && (d == 0 ==> c * d == 0)
  {
  }

  lemma DivUnique(x: nat, c: nat, q: int, r: nat)
    requires x == c * q + r && r < c
    ensures x % c == r && x / c == q
  {
    var d := q - x / c;
    assert c * d == x % c - r by {
      assert x == c * (x / c) + x % c;
    }
    MultipleBounds(c, d);
  }

  function Pow2(k: nat): (p: nat)
    ensures p > 0
  {
    if k == 0 then 1 else 2 * Pow2(k - 1)
  }

  lemma {:induction false} Pow2Splits(k: nat, j: nat)
    ensures Pow2(k + j) == Pow2(k) * Pow2(j)
  {
    if j > 0 {
      Pow2Splits(k, j - 1);
      assert Pow2(k + j) == 2 * (Pow2(k) * Pow2(j - 1)) == Pow2(k) * (2 * Pow2(j - 1));
    }
  }

  lemma {:induction false} Pow2Grows(k: nat, j: nat)
    requires k <= j
    ensures Pow2(k) <= Pow2(j)
    decreases j
  {
    if k < j {
      Pow2Grows(k, j - 1);
    }
  }

  lemma Pow64()
    ensures Pow2(64) == 0x1_0000_0000_0000_0000
  {
    assert Pow2(8) == 0x100;
    hide Pow2;
    Pow2Splits(8, 8);
    Pow2Splits(16, 16);
    Pow2Splits(32, 32);
  }
}
