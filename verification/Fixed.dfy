/** Integer arithmetic with a stated rounding direction. */
module Fixed {

  const BPS_DENOMINATOR := 10_000

  /** Rounds down: what a trader receives. */
  function MulDivFloor(a: nat, b: nat, d: nat): (r: nat)
    requires d > 0
    ensures r * d <= a * b < (r + 1) * d
  {
    FloorBounds(a * b, d);
    a * b / d
  }

  /** Rounds up: what a trader pays. */
  function MulDivCeil(a: nat, b: nat, d: nat): (r: nat)
    requires d > 0
    ensures r * d >= a * b && (r > 0 ==> (r - 1) * d < a * b)
  {
    FloorBounds(a * b + d - 1, d);
    if a * b == 0 then 0 else (a * b + d - 1) / d
  }

  lemma FloorBounds(x: nat, d: nat)
    requires d > 0
    ensures 0 <= x / d && x / d * d <= x < (x / d + 1) * d
  {
    assert x == x / d * d + x % d;
    assert (x / d + 1) * d == x / d * d + d;
  }

  /** Dividing cannot pass a bound that holds before dividing. */
  lemma QuotientAtMost(q: nat, d: nat, bound: nat)
    requires d > 0 && q * d <= bound * d
    ensures q <= bound
  {
    assert (q - bound) * d == q * d - bound * d;
  }

  lemma QuotientBelow(q: nat, d: nat, bound: nat)
    requires d > 0 && q * d < bound * d
    ensures q < bound
  {
    assert (bound - q) * d == bound * d - q * d;
  }

  /** Quotients keep the order of what they divide. */
  lemma DivMonotone(a: nat, b: nat, n: nat)
    requires n > 0 && a <= b
    ensures a / n <= b / n
  {
    FloorBounds(a, n);
    FloorBounds(b, n);
    QuotientBelow(a / n, n, b / n + 1);
  }

  /** Rounds toward zero, as the source's integers do for either sign. */
  function TruncatedDiv(a: int, b: nat): (q: int)
    requires b > 0
    ensures a >= 0 ==> q >= 0 && q * b <= a < (q + 1) * b
    ensures a <= 0 ==> q <= 0 && (q - 1) * b < a <= q * b
  {
    FloorBounds(if a >= 0 then a else -a, b);
    if a >= 0 then a / b else
      Negated((-a) / b, b);
      -((-a) / b)
  }

  lemma Negated(q: int, b: int)
    ensures -q * b == -(q * b) && (-q - 1) * b == -((q + 1) * b)
  {
  }
}
