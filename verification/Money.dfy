/** Integer arithmetic on amounts in minor units: the big-integer quotient narrowed to 64 bits. */
module Money {
  const TWO_63: int := 0x8000_0000_0000_0000
  const TWO_64: int := 0x1_0000_0000_0000_0000

  predicate Fits64(x: int) {
    -TWO_63 <= x < TWO_63
  }

  /** `big.Int.Int64`: the low 64 bits, in two's complement. */
  function Wrap64(x: int): (r: int)
    ensures Fits64(r)
    ensures Fits64(x) ==> r == x
  {
    var low := x % TWO_64;
    if low < TWO_63 then low else low - TWO_64
  }

  /** `big.Int.Quo`: division that truncates toward zero. */
  function Quo(a: int, d: int): (q: int)
    requires d > 0
    ensures a >= 0 ==> q * d <= a < q * d + d
    ensures a <= 0 ==> q * d - d < a <= q * d
    ensures (a >= 0 ==> q >= 0) && (a <= 0 ==> q <= 0)
  {
    if a >= 0 then a / d else -((-a) / d)
  }

  function MulDiv(a: int, b: int, d: int): int
    requires d > 0
  {
    Wrap64(Quo(a * b, d))
  }

  lemma CancelLess(x: int, y: int, d: int)
    requires d > 0 && x * d < y * d
    ensures x < y
  {
  }

  lemma CancelAtMost(x: int, y: int, d: int)
    requires d > 0 && x * d <= y * d
    ensures x <= y
  {
  }

  /** Truncating division is monotone. */
  lemma QuoMonotone(a: int, b: int, d: int)
    requires d > 0 && a <= b
    ensures Quo(a, d) <= Quo(b, d)
  {
    var p, q := Quo(a, d), Quo(b, d);
    if b <= 0 {
      CancelLess(p - 1, q, d);
    } else if a >= 0 {
      CancelLess(p, q + 1, d);
    }
  }

  /** A proper fraction of an amount lies between zero and the amount. */
  lemma FractionBounds(a: int, b: int, d: int)
    requires d > 0 && 0 <= b <= d
    ensures a >= 0 ==> 0 <= a * b <= a * d
    ensures a <= 0 ==> a * d <= a * b <= 0
  {
  }

  /** A proper fraction of a 64-bit amount is a 64-bit amount no larger, with the sign of the amount. */
  lemma FractionFits(a: int, b: int, d: int)
    requires d > 0 && 0 <= b <= d && Fits64(a)
    ensures MulDiv(a, b, d) == Quo(a * b, d)
    ensures a >= 0 ==> 0 <= MulDiv(a, b, d) <= a
    ensures a <= 0 ==> a <= MulDiv(a, b, d) <= 0
  {
    FractionBounds(a, b, d);
    QuoOfMultiple(a, d);
    if a >= 0 { QuoMonotone(a * b, a * d, d); } else { QuoMonotone(a * d, a * b, d); }
  }

  lemma QuoOfMultiple(a: int, d: int)
    requires d > 0
    ensures Quo(a * d, d) == a
  {
    var q := Quo(a * d, d);
    if a >= 0 {
      assert a * d >= 0;
      CancelAtMost(q, a, d);
      CancelLess(a, q + 1, d);
    } else {
      assert a * d <= 0;
      CancelLess(q - 1, a, d);
      CancelAtMost(a, q, d);
    }
  }
}
