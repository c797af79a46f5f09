/** Real arithmetic one fact at a time, and sums and means of lists of reals. */
module Reals {

  lemma ProductPositive(a: real, b: real)
    requires a > 0.0 && b > 0.0
    ensures a * b > 0.0
  {
  }

  lemma ProductNonNegative(a: real, b: real)
    requires a >= 0.0 && b >= 0.0
    ensures a * b >= 0.0
  {
  }

  lemma SquareNonNegative(a: real)
    ensures a * a >= 0.0
  {
  }

  lemma SignOfFactor(x: real, n: real)
    requires n > 0.0
    ensures x * n >= 0.0 <==> x >= 0.0
  {
  }

  lemma ZeroProduct(x: real, y: real)
    requires x * y == 0.0
    ensures x == 0.0 || y == 0.0
  {
  }

  lemma CancelFactor(n: real, a: real, b: real)
    requires n > 0.0 && n * a == n * b
    ensures a == b
  {
    ZeroProduct(n, a - b);
  }

  lemma CancelBelow(a: real, b: real, v: real)
    requires v > 0.0 && a * v <= b * v
    ensures a <= b
  {
    assert (b - a) * v == b * v - a * v;
    SignOfFactor(b - a, v);
  }

  lemma DifferenceOfSquares(a: real, b: real)
    ensures (a - b) * (a + b) == a * a - b * b
  {
  }

  lemma SquareGrows(a: real, b: real)
    requires a > b >= 0.0
    ensures a * a > b * b >= 0.0
  {
    SquareNonNegative(b);
    DifferenceOfSquares(a, b);
    ProductPositive(a - b, a + b);
  }

  lemma SquareOfNegative(a: real)
    ensures (-a) * (-a) == a * a
  {
  }

  lemma RootIsUnique(a: real, b: real)
    requires a >= 0.0 && b >= 0.0 && a * a == b * b
    ensures a == b
  {
    DifferenceOfSquares(a, b);
    ZeroProduct(a - b, a + b);
  }

  lemma SquareOfProduct(a: real, b: real)
    ensures (a * b) * (a * b) == (a * a) * (b * b)
  {
  }

  lemma TimesAssociates(a: real, b: real, c: real)
    ensures a * (b * c) == (a * b) * c == b * (a * c)
  {
  }

  lemma Regroup(a: real, product: real, b: real, c: real)
    requires product == b * c
    ensures a * product == (a * b) * c
  {
  }

  lemma Distribute(r: real, a: real, b: real)
    ensures r * (a + b) == r * a + r * b
  {
  }

  lemma QuotientTimes(s: real, n: real)
    requires n > 0.0
    ensures n * (s / n) == s && (s / n) * n == s
  {
  }

  lemma QuotientNonNegative(s: real, n: real)
    requires n > 0.0 && s >= 0.0
    ensures s / n >= 0.0
  {
    QuotientTimes(s, n);
    SignOfFactor(s / n, n);
  }

  lemma QuotientIs(s: real, n: real, q: real)
    requires n > 0.0 && n * q == s
    ensures s / n == q
  {
    QuotientTimes(s, n);
    CancelFactor(n, s / n, q);
  }

  lemma QuotientWithin(s: real, n: real, lo: real, hi: real)
    requires n > 0.0 && n * lo <= s <= n * hi
    ensures lo <= s / n <= hi
  {
    QuotientTimes(s, n);
    CancelBelow(lo, s / n, n);
    CancelBelow(s / n, hi, n);
  }

  // ----- Sums and means -----

  function Sum(xs: seq<real>): real {
    if xs == [] then 0.0 else Sum(xs[..|xs| - 1]) + xs[|xs| - 1]
  }

  function Mean(xs: seq<real>): real
    requires xs != []
  {
    Sum(xs) / |xs| as real
  }

  lemma SumSnoc(xs: seq<real>, x: real)
    ensures Sum(xs + [x]) == Sum(xs) + x
  {
    assert (xs + [x])[..|xs|] == xs;
  }

  lemma {:induction false} SumFirst(xs: seq<real>)
    requires xs != []
    ensures Sum(xs) == xs[0] + Sum(xs[1..])
  {
    if |xs| > 1 {
      SumFirst(xs[..|xs| - 1]);
      assert xs[1..][..|xs| - 2] == xs[..|xs| - 1][1..];
    }
  }

  /** `x` added up `n` times. */
  function Times(n: nat, x: real): real {
    if n == 0 then 0.0 else Times(n - 1, x) + x
  }

  lemma {:induction false} TimesIs(n: nat, x: real)
    ensures Times(n, x) == n as real * x
  {
    if n > 0 {
      TimesIs(n - 1, x);
      assert n as real * x == (n - 1) as real * x + x;
    }
  }

  ghost predicate Within(xs: seq<real>, lo: real, hi: real) {
    forall i :: 0 <= i < |xs| ==> lo <= xs[i] <= hi
  }

  lemma {:induction false} SumWithin(xs: seq<real>, lo: real, hi: real)
    requires Within(xs, lo, hi)
    ensures Times(|xs|, lo) <= Sum(xs) <= Times(|xs|, hi)
  {
    if xs != [] {
      SumWithin(xs[..|xs| - 1], lo, hi);
    }
  }

  lemma MeanWithin(xs: seq<real>, lo: real, hi: real)
    requires xs != [] && Within(xs, lo, hi)
    ensures lo <= Mean(xs) <= hi
  {
    hide Times, Sum, Within;
    SumWithin(xs, lo, hi);
    TimesIs(|xs|, lo);
    TimesIs(|xs|, hi);
    QuotientWithin(Sum(xs), |xs| as real, lo, hi);
  }

  // ----- Lists through a line -----

  /** `f` takes prices to another unit and another zero. */
  ghost predicate Requotes(f: real -> real, c: real, d: real) {
    forall x :: f(x) == c * x + d
  }

  function Mapped(xs: seq<real>, f: real -> real): (ys: seq<real>)
    ensures |ys| == |xs|
  {
    seq(|xs|, i requires 0 <= i < |xs| => f(xs[i]))
  }

  lemma LineStep(c: real, d: real, s: real, nd: real, x: real)
    ensures (c * s + nd) + (c * x + d) == c * (s + x) + (nd + d)
  {
  }

  lemma {:induction false} SumMapped(xs: seq<real>, f: real -> real, c: real, d: real)
    requires Requotes(f, c, d)
    ensures Sum(Mapped(xs, f)) == c * Sum(xs) + Times(|xs|, d)
  {
    if xs != [] {
      var front, x := xs[..|xs| - 1], xs[|xs| - 1];
      SumMapped(front, f, c, d);
      assert Mapped(xs, f) == Mapped(front, f) + [f(x)];
      SumSnoc(Mapped(front, f), f(x));
      LineStep(c, d, Sum(front), Times(|front|, d), x);
    }
  }

  lemma LineTimes(c: real, d: real, n: real, q: real, s: real)
    requires n * q == s
    ensures n * (c * q + d) == c * s + n * d
  {
    TimesAssociates(n, c, q);
    Distribute(n, c * q, d);
  }

  lemma LineOver(c: real, d: real, n: real, s: real)
    requires n > 0.0
    ensures (c * s + n * d) / n == c * (s / n) + d
  {
    var q := s / n;
    QuotientTimes(s, n);
    LineTimes(c, d, n, q, s);
    QuotientIs(c * s + n * d, n, c * q + d);
  }

  /** The mean of requoted values is the requoted mean. */
  lemma MeanMapped(xs: seq<real>, f: real -> real, c: real, d: real)
    requires xs != [] && Requotes(f, c, d)
    ensures Mean(Mapped(xs, f)) == f(Mean(xs))
  {
    SumMapped(xs, f, c, d);
    TimesIs(|xs|, d);
    LineOver(c, d, |xs| as real, Sum(xs));
  }
}
