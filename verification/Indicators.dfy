/** Chart indicators over candles, in exact real arithmetic. */
module Indicators {
  import opened Reals

  datatype Bar = Bar(time: int, high: real, low: real, close: real, volume: real)

  datatype Point = Point(time: int, value: real)

  function ClosePoints(bars: seq<Bar>): seq<Point> {
    seq(|bars|, i requires 0 <= i < |bars| => Point(bars[i].time, bars[i].close))
  }

  function Values(points: seq<Point>): seq<real> {
    seq(|points|, i requires 0 <= i < |points| => points[i].value)
  }

  function Move(points: seq<Point>, f: real -> real): seq<Point> {
    seq(|points|, i requires 0 <= i < |points| => Point(points[i].time, f(points[i].value)))
  }

  lemma MoveSnoc(points: seq<Point>, p: Point, f: real -> real)
    ensures Move(points + [p], f) == Move(points, f) + [Point(p.time, f(p.value))]
  {
  }

  lemma ValuesMove(points: seq<Point>, f: real -> real)
    ensures Values(Move(points, f)) == Mapped(Values(points), f)
  {
  }

  // ----- The simple moving average -----

  /** The mean of each full window among the first `n` values, at the time it ends. */
  function SmaUpTo(points: seq<Point>, period: int, n: nat): (out: seq<Point>)
    requires 1 <= period && n <= |points|
    ensures |out| == if n < period then 0 else n - period + 1
  {
    if n < period then []
    else SmaUpTo(points, period, n - 1) + [Point(points[n - 1].time, Mean(Values(points)[n - period..n]))]
  }

  function SmaOf(points: seq<Point>, period: int): seq<Point> {
    if period < 1 then [] else SmaUpTo(points, period, |points|)
  }

  /** The sum of the last `period` values before `i`, or of as many as there are. */
  function Trailing(xs: seq<real>, period: nat, i: nat): real
    requires i <= |xs|
  {
    Sum(xs[if i >= period then i - period else 0..i])
  }

  lemma TrailingSlides(xs: seq<real>, period: nat, i: nat)
    requires 1 <= period && i < |xs|
    ensures Trailing(xs, period, i + 1) == Trailing(xs, period, i) + xs[i] - if i >= period then xs[i - period] else 0.0
  {
    var from := if i >= period then i - period else 0;
    assert xs[from..i + 1] == xs[from..i] + [xs[i]];
    SumSnoc(xs[from..i], xs[i]);
    if i >= period {
      SumFirst(xs[from..i + 1]);
      assert xs[from..i + 1][1..] == xs[from + 1..i + 1];
    }
  }

  /** A running sum, and the line drawn so far. */
  ghost predicate SmaAt(points: seq<Point>, period: int, i: nat, sum: real, out: seq<Point>)
    requires 1 <= period && i <= |points|
  {
    sum == Trailing(Values(points), period, i) && out == SmaUpTo(points, period, i)
  }

  lemma SmaStarts(points: seq<Point>, period: int)
    requires 1 <= period
    ensures SmaAt(points, period, 0, 0.0, [])
  {
  }

  lemma SmaGoesOn(points: seq<Point>, period: int, i: nat, sum: real, out: seq<Point>, next: real)
    requires 1 <= period && i < |points| && SmaAt(points, period, i, sum, out)
    requires next == sum + points[i].value - if i >= period then points[i - period].value else 0.0
    ensures i < period - 1 ==> SmaAt(points, period, i + 1, next, out)
    ensures i >= period - 1 ==> SmaAt(points, period, i + 1, next, out + [Point(points[i].time, next / period as real)])
  {
    TrailingSlides(Values(points), period, i);
  }

  /** The running sum, one close in and one close out, is the mean of the window. */
  method Sma(bars: seq<Bar>, period: int) returns (out: seq<Point>)
    ensures out == SmaOf(ClosePoints(bars), period)
  {
    if period < 1 || |bars| < period { return []; }
    out := [];
    var sum := 0.0;
    ghost var points := ClosePoints(bars);
    SmaStarts(points, period);
    for i := 0 to |bars|
      invariant SmaAt(points, period, i, sum, out)
    {
      hide SmaAt;
      ghost var before := sum;
      sum := sum + bars[i].close;
      if i >= period {
        sum := sum - bars[i - period].close;
      }
      SmaGoesOn(points, period, i, before, out, sum);
      if i >= period - 1 {
        out := out + [Point(bars[i].time, sum / period as real)];
      }
    }
  }

  lemma WindowMoves(points: seq<Point>, from: nat, to: nat, f: real -> real)
    requires from <= to <= |points|
    ensures Values(Move(points, f))[from..to] == Mapped(Values(points)[from..to], f)
  {
    ValuesMove(points, f);
  }

  lemma MeanMoves(points: seq<Point>, from: nat, to: nat, f: real -> real, c: real, d: real)
    requires from < to <= |points| && Requotes(f, c, d)
    ensures Mean(Values(Move(points, f))[from..to]) == f(Mean(Values(points)[from..to]))
  {
    WindowMoves(points, from, to, f);
    MeanMapped(Values(points)[from..to], f, c, d);
  }

  /** Requoted prices give the same average, requoted. */
  lemma {:induction false} SmaMoves(points: seq<Point>, period: int, n: nat, f: real -> real, c: real, d: real)
    requires 1 <= period && n <= |points| && Requotes(f, c, d)
    ensures SmaUpTo(Move(points, f), period, n) == Move(SmaUpTo(points, period, n), f)
  {
    hide Requotes, Mean;
    if n >= period {
      SmaMoves(points, period, n - 1, f, c, d);
      MeanMoves(points, n - period, n, f, c, d);
      MoveSnoc(SmaUpTo(points, period, n - 1), Point(points[n - 1].time, Mean(Values(points)[n - period..n])), f);
    }
  }

  /** Over bars: from the period-th on, at each bar's time, the mean of the last `period`
      closes. */
  lemma SmaIsTheMean(bars: seq<Bar>, period: int, k: nat)
    requires 1 <= period && k + period <= |bars|
    ensures |SmaOf(ClosePoints(bars), period)| == |bars| - period + 1
    ensures var closes := seq(period, i requires 0 <= i < period => bars[k + i].close);
      SmaOf(ClosePoints(bars), period)[k] == Point(bars[k + period - 1].time, Mean(closes))
  {
    var points := ClosePoints(bars);
    hide Mean, Values, SmaUpTo;
    SmaUpToAt(points, period, |points|, k);
    WindowOfCloses(bars, period, k);
  }

  lemma WindowOfCloses(bars: seq<Bar>, period: int, k: nat)
    requires 1 <= period && k + period <= |bars|
    ensures Values(ClosePoints(bars))[k..k + period] == seq(period, i requires 0 <= i < period => bars[k + i].close)
  {
  }

  lemma SmaUpToSnoc(points: seq<Point>, period: int, n: nat)
    requires 1 <= period <= n <= |points|
    ensures SmaUpTo(points, period, n)
         == SmaUpTo(points, period, n - 1) + [Point(points[n - 1].time, Mean(Values(points)[n - period..n]))]
  {
  }

  lemma {:induction false} SmaUpToAt(points: seq<Point>, period: int, n: nat, k: nat)
    requires 1 <= period <= n <= |points| && k <= n - period
    ensures SmaUpTo(points, period, n)[k] == Point(points[k + period - 1].time, Mean(Values(points)[k..k + period]))
  {
    hide Mean, Values, SmaUpTo;
    SmaUpToSnoc(points, period, n);
    if k < n - period {
      SmaUpToAt(points, period, n - 1, k);
    } else {
      assert k + period == n;
    }
  }

  // ----- The exponential moving average -----

  function Smoothing(period: int): (k: real)
    requires period >= 1
    ensures 0.0 < k <= 1.0
  {
    2.0 / (period + 1) as real
  }

  function Blend(x: real, y: real, k: real): real {
    x * k + y * (1.0 - k)
  }

  function EmaAt(xs: seq<real>, period: int, i: nat): real
    requires 1 <= period <= i + 1 <= |xs|
  {
    if i == period - 1 then Mean(xs[..period])
    else Blend(xs[i], EmaAt(xs, period, i - 1), Smoothing(period))
  }

  function EmaUpTo(points: seq<Point>, period: int, n: nat): (out: seq<Point>)
    requires 1 <= period && n <= |points|
    ensures |out| == if n < period then 0 else n - period + 1
  {
    if n < period then []
    else EmaUpTo(points, period, n - 1) + [Point(points[n - 1].time, EmaAt(Values(points), period, n - 1))]
  }

  function EmaOf(points: seq<Point>, period: int): seq<Point> {
    if period < 1 then [] else EmaUpTo(points, period, |points|)
  }

  lemma {:induction false} EmaUpToAt(points: seq<Point>, period: int, n: nat, k: nat)
    requires 1 <= period <= n <= |points| && k <= n - period
    ensures EmaUpTo(points, period, n)[k] == Point(points[k + period - 1].time, EmaAt(Values(points), period, k + period - 1))
  {
    if k < n - period {
      EmaUpToAt(points, period, n - 1, k);
    }
  }

  /** The mean of the first `period` values, the seed of the recurrence. */
  method Seed(values: seq<real>, period: int) returns (mean: real)
    requires 1 <= period <= |values|
    ensures mean == Mean(values[..period])
  {
    var sum := 0.0;
    for i := 0 to period
      invariant sum == Sum(values[..i])
    {
      assert values[..i + 1] == values[..i] + [values[i]];
      SumSnoc(values[..i], values[i]);
      sum := sum + values[i];
    }
    mean := sum / period as real;
  }

  method EmaOfPoints(points: seq<Point>, period: int) returns (out: seq<Point>)
    ensures out == EmaOf(points, period)
  {
    if period < 1 || |points| < period { return []; }
    var k := Smoothing(period);
    var prev := Seed(Values(points), period);
    out := [Point(points[period - 1].time, prev)];
    assert EmaUpTo(points, period, period - 1) == [];
    for i := period to |points|
      invariant prev == EmaAt(Values(points), period, i - 1)
      invariant out == EmaUpTo(points, period, i)
    {
      prev := Blend(points[i].value, prev, k);
      out := out + [Point(points[i].time, prev)];
    }
  }

  /** The same recurrence over the closes. */
  method Ema(bars: seq<Bar>, period: int) returns (out: seq<Point>)
    ensures out == EmaOf(ClosePoints(bars), period)
  {
    out := EmaOfPoints(ClosePoints(bars), period);
  }

  lemma BlendWithin(x: real, y: real, k: real, lo: real, hi: real)
    requires 0.0 <= k <= 1.0 && lo <= x <= hi && lo <= y <= hi
    ensures lo <= Blend(x, y, k) <= hi
  {
    ProductNonNegative(x - lo, k);
    ProductNonNegative(hi - x, k);
    ProductNonNegative(y - lo, 1.0 - k);
    ProductNonNegative(hi - y, 1.0 - k);
  }

  /** The average never leaves the range of the values behind it. */
  lemma {:induction false} EmaStaysInRange(xs: seq<real>, period: int, i: nat, lo: real, hi: real)
    requires 1 <= period <= i + 1 <= |xs| && Within(xs[..i + 1], lo, hi)
    ensures lo <= EmaAt(xs, period, i) <= hi
  {
    if i == period - 1 {
      MeanWithin(xs[..period], lo, hi);
    } else {
      assert forall j :: 0 <= j < i ==> xs[..i][j] == xs[..i + 1][j];
      EmaStaysInRange(xs, period, i - 1, lo, hi);
      assert xs[i] == xs[..i + 1][i];
      BlendWithin(xs[i], EmaAt(xs, period, i - 1), Smoothing(period), lo, hi);
    }
  }

  predicate Line(xs: seq<real>, a: real, step: real) {
    forall j :: 0 <= j < |xs| ==> xs[j] == a + step * j as real
  }

  /** On prices that rise by the same step every bar the average lags the price by half a
      period less half a bar, at every bar: the lag is what the smoothing is chosen for. */
  lemma {:induction false} EmaLagsALine(xs: seq<real>, period: int, i: nat, a: real, step: real)
    requires 1 <= period <= i + 1 <= |xs| && Line(xs, a, step)
    ensures EmaAt(xs, period, i) == xs[i] - step * (period - 1) as real / 2.0
  {
    hide Line, Smoothing, Blend, Mean;
    if i == period - 1 {
      MeanOfALine(xs, period, a, step);
    } else {
      EmaLagsALine(xs, period, i - 1, a, step);
      LineSteps(xs, a, step, i);
      SmoothingIs(period);
      LagKept(xs[i], EmaAt(xs, period, i - 1), step, Smoothing(period), period);
    }
  }

  lemma LineSteps(xs: seq<real>, a: real, step: real, i: nat)
    requires Line(xs, a, step) && 0 < i < |xs|
    ensures xs[i - 1] == xs[i] - step
  {
    assert xs[i - 1] == a + step * (i - 1) as real;
  }

  lemma SmoothingIs(period: int)
    requires period >= 1
    ensures Smoothing(period) * (period as real + 1.0) == 2.0
  {
  }

  lemma LagKept(x: real, y: real, step: real, k: real, period: int)
    requires k * (period as real + 1.0) == 2.0 && y == x - step - step * (period - 1) as real / 2.0
    ensures Blend(x, y, k) == x - step * (period - 1) as real / 2.0
  {
    var n := period as real;
    assert (period - 1) as real == n - 1.0;
    var lag := step * (n - 1.0) / 2.0;
    assert (step + lag) * (1.0 - k) == (step * (n + 1.0) - step * (k * (n + 1.0))) / 2.0;
  }

  /** Twice the sum of the first `n` values of a line. */
  function TwiceTheSum(n: nat, a: real, step: real): real {
    n as real * (a + (a + step * (n as real - 1.0)))
  }

  lemma TwiceTheSumGrows(n: nat, a: real, step: real)
    ensures TwiceTheSum(n + 1, a, step) == TwiceTheSum(n, a, step) + 2.0 * (a + step * n as real)
  {
    var m := n as real;
    assert (n + 1) as real == m + 1.0;
    assert (m + 1.0) * (a + (a + step * m)) == m * (a + (a + step * (m - 1.0))) + 2.0 * (a + step * m);
  }

  lemma {:induction false} SumOfALine(xs: seq<real>, n: nat, a: real, step: real)
    requires Line(xs, a, step) && n <= |xs|
    ensures 2.0 * Sum(xs[..n]) == TwiceTheSum(n, a, step)
  {
    hide Sum, TwiceTheSum;
    if n > 0 {
      SumOfALine(xs, n - 1, a, step);
      assert xs[..n] == xs[..n - 1] + [xs[n - 1]];
      SumSnoc(xs[..n - 1], xs[n - 1]);
      TwiceTheSumGrows(n - 1, a, step);
    } else {
      NothingSummed(a, step);
    }
  }

  lemma NothingSummed(a: real, step: real)
    ensures Sum([]) == 0.0 == TwiceTheSum(0, a, step)
  {
  }

  lemma MeanOfALine(xs: seq<real>, n: nat, a: real, step: real)
    requires Line(xs, a, step) && 0 < n <= |xs|
    ensures Mean(xs[..n]) == xs[n - 1] - step * (n - 1) as real / 2.0
  {
    SumOfALine(xs, n, a, step);
    var m, half := n as real, a + step * (n as real - 1.0) / 2.0;
    assert (n - 1) as real == m - 1.0;
    assert Sum(xs[..n]) == m * half;
    QuotientOf(m, half);
  }

  lemma QuotientOf(n: real, q: real)
    requires n > 0.0
    ensures n * q / n == q
  {
  }

  lemma BlendStep(x: real, y: real, k: real, c: real, d: real)
    ensures Blend(c * x + d, c * y + d, k) == c * Blend(x, y, k) + d
  {
  }

  lemma BlendMapped(x: real, y: real, k: real, f: real -> real, c: real, d: real)
    requires Requotes(f, c, d)
    ensures Blend(f(x), f(y), k) == f(Blend(x, y, k))
  {
    BlendStep(x, y, k, c, d);
  }

  lemma {:induction false} EmaAtMoves(xs: seq<real>, period: int, i: nat, f: real -> real, c: real, d: real)
    requires 1 <= period <= i + 1 <= |xs| && Requotes(f, c, d)
    ensures EmaAt(Mapped(xs, f), period, i) == f(EmaAt(xs, period, i))
  {
    if i == period - 1 {
      assert Mapped(xs, f)[..period] == Mapped(xs[..period], f);
      MeanMapped(xs[..period], f, c, d);
    } else {
      EmaAtMoves(xs, period, i - 1, f, c, d);
      BlendMapped(xs[i], EmaAt(xs, period, i - 1), Smoothing(period), f, c, d);
    }
  }

  lemma {:induction false} EmaMoves(points: seq<Point>, period: int, n: nat, f: real -> real, c: real, d: real)
    requires 1 <= period && n <= |points| && Requotes(f, c, d)
    ensures EmaUpTo(Move(points, f), period, n) == Move(EmaUpTo(points, period, n), f)
  {
    if n >= period {
      EmaMoves(points, period, n - 1, f, c, d);
      ValuesMove(points, f);
      EmaAtMoves(Values(points), period, n - 1, f, c, d);
      MoveSnoc(EmaUpTo(points, period, n - 1), Point(points[n - 1].time, EmaAt(Values(points), period, n - 1)), f);
    }
  }

  /** What a bar's close counts for at bar `i`: the newest `Smoothing`, each older one
      shrunk again at every bar since, the first `period` alike. */
  function Weight(period: int, i: nat, j: nat): real
    requires 1 <= period <= i + 1 && j <= i
    decreases i
  {
    if i == period - 1 then 1.0 / period as real
    else if i == j then Smoothing(period)
    else (1.0 - Smoothing(period)) * Weight(period, i - 1, j)
  }

  function Nudged(xs: seq<real>, j: nat, delta: real): (ys: seq<real>)
    requires j < |xs|
    ensures |ys| == |xs|
  {
    xs[j := xs[j] + delta]
  }

  lemma {:induction false} SumNudged(xs: seq<real>, j: nat, delta: real)
    requires j < |xs|
    ensures Sum(Nudged(xs, j, delta)) == Sum(xs) + delta
  {
    var front := xs[..|xs| - 1];
    if j == |xs| - 1 {
      assert Nudged(xs, j, delta)[..|xs| - 1] == front;
    } else {
      SumNudged(front, j, delta);
      assert Nudged(xs, j, delta)[..|xs| - 1] == Nudged(front, j, delta);
    }
  }

  lemma ShareOfMean(s: real, n: real, w: real, delta: real)
    requires n > 0.0 && w == 1.0 / n
    ensures (s + delta) / n == s / n + w * delta
  {
  }

  lemma {:induction false} EmaReadsThePast(xs: seq<real>, ys: seq<real>, period: int, i: nat)
    requires 1 <= period <= i + 1 <= |xs| && i < |ys| && xs[..i + 1] == ys[..i + 1]
    ensures EmaAt(xs, period, i) == EmaAt(ys, period, i)
  {
    if i == period - 1 {
    } else {
      assert xs[..i] == xs[..i + 1][..i] && ys[..i] == ys[..i + 1][..i];
      EmaReadsThePast(xs, ys, period, i - 1);
      assert xs[i] == xs[..i + 1][i] && ys[i] == ys[..i + 1][i];
    }
  }

  function Faded(w: real, k: real): real {
    (1.0 - k) * w
  }

  /** A move of `delta` carried over in the share `w`. */
  predicate Carries(moved: real, before: real, w: real, delta: real) {
    moved == before + w * delta
  }

  lemma NudgeNewest(x: real, y: real, k: real, delta: real)
    ensures Carries(Blend(x + delta, y, k), Blend(x, y, k), k, delta)
  {
  }

  lemma NudgeOlder(x: real, y: real, nudged: real, k: real, older: real, w: real, delta: real)
    requires Carries(nudged, y, older, delta) && w == Faded(older, k)
    ensures Carries(Blend(x, nudged, k), Blend(x, y, k), w, delta)
  {
  }

  /** What a close moved by `delta` does to the average at bar `i`. */
  ghost predicate Remembers(xs: seq<real>, period: int, i: nat, j: nat, delta: real)
    requires 1 <= period <= i + 1 <= |xs| && j <= i
  {
    Carries(EmaAt(Nudged(xs, j, delta), period, i), EmaAt(xs, period, i), Weight(period, i, j), delta)
  }

  lemma SeedRemembers(xs: seq<real>, period: int, j: nat, delta: real)
    requires 1 <= period <= |xs| && j < period
    ensures Remembers(xs, period, period - 1, j, delta)
  {
    assert Nudged(xs, j, delta)[..period] == Nudged(xs[..period], j, delta);
    SumNudged(xs[..period], j, delta);
    ShareOfMean(Sum(xs[..period]), period as real, Weight(period, period - 1, j), delta);
  }

  lemma EmaStep(xs: seq<real>, period: int, i: nat)
    requires 1 <= period <= i < |xs|
    ensures EmaAt(xs, period, i) == Blend(xs[i], EmaAt(xs, period, i - 1), Smoothing(period))
  {
  }

  lemma NewestRemembers(xs: seq<real>, period: int, i: nat, delta: real)
    requires 1 <= period <= i < |xs|
    ensures Remembers(xs, period, i, i, delta)
  {
    var ys := Nudged(xs, i, delta);
    hide Carries, Blend, Smoothing;
    EmaReadsThePast(xs, ys, period, i - 1);
    EmaStep(xs, period, i);
    EmaStep(ys, period, i);
    NudgeNewest(xs[i], EmaAt(xs, period, i - 1), Smoothing(period), delta);
  }

  lemma WeightStep(period: int, i: nat, j: nat)
    requires 1 <= period <= i && j < i
    ensures Weight(period, i, j) == Faded(Weight(period, i - 1, j), Smoothing(period))
  {
  }

  lemma OlderRemembers(xs: seq<real>, period: int, i: nat, j: nat, delta: real)
    requires 1 <= period <= i < |xs| && j < i && Remembers(xs, period, i - 1, j, delta)
    ensures Remembers(xs, period, i, j, delta)
  {
    var ys := Nudged(xs, j, delta);
    assert ys[i] == xs[i];
    hide EmaAt, Weight, Blend, Smoothing, Nudged, Carries, Faded;
    EmaStep(xs, period, i);
    EmaStep(ys, period, i);
    WeightStep(period, i, j);
    NudgeOlder(xs[i], EmaAt(xs, period, i - 1), EmaAt(ys, period, i - 1), Smoothing(period),
               Weight(period, i - 1, j), Weight(period, i, j), delta);
  }

  /** The recurrence has no other memory than its weights: a close moved by `delta` moves
      every later average by its weight's share, exactly. */
  lemma EmaRemembersByWeight(xs: seq<real>, period: int, i: nat, j: nat, delta: real)
    requires 1 <= period <= i + 1 <= |xs| && j <= i
    ensures EmaAt(Nudged(xs, j, delta), period, i) == EmaAt(xs, period, i) + Weight(period, i, j) * delta
  {
    hide EmaAt, Weight, Nudged;
    RemembersAll(xs, period, i, j, delta);
  }

  lemma {:induction false} RemembersAll(xs: seq<real>, period: int, i: nat, j: nat, delta: real)
    requires 1 <= period <= i + 1 <= |xs| && j <= i
    ensures Remembers(xs, period, i, j, delta)
  {
    hide Remembers;
    if i == period - 1 {
      SeedRemembers(xs, period, j, delta);
    } else if i == j {
      NewestRemembers(xs, period, i, delta);
    } else {
      RemembersAll(xs, period, i - 1, j, delta);
      OlderRemembers(xs, period, i, j, delta);
    }
  }

  // ----- Bollinger bands -----

  datatype Bands = Bands(upper: seq<Point>, middle: seq<Point>, lower: seq<Point>)

  function Square(x: real): (s: real)
    ensures s >= 0.0
  {
    SquareNonNegative(x);
    x * x
  }

  /** The sum of squared distances from `mean`. */
  function Squares(xs: seq<real>, mean: real): (s: real)
    ensures s >= 0.0
  {
    if xs == [] then 0.0 else Squares(xs[..|xs| - 1], mean) + Square(xs[|xs| - 1] - mean)
  }

  ghost predicate IsRoot(sqrt: real -> real) {
    forall x :: x >= 0.0 ==> sqrt(x) >= 0.0 && sqrt(x) * sqrt(x) == x
  }

  function RootShare(total: real, n: nat, sqrt: real -> real): real
    requires n > 0
  {
    sqrt(total / n as real)
  }

  function DeviationFrom(xs: seq<real>, mean: real, sqrt: real -> real): real
    requires xs != []
  {
    RootShare(Squares(xs, mean), |xs|, sqrt)
  }

  function Deviation(xs: seq<real>, sqrt: real -> real): real
    requires xs != []
  {
    DeviationFrom(xs, Mean(xs), sqrt)
  }

  /** A number of deviations from the mean. */
  function Edge(xs: seq<real>, multiplier: real, sqrt: real -> real): real
    requires xs != []
  {
    Mean(xs) + multiplier * Deviation(xs, sqrt)
  }

  function BandUpTo(points: seq<Point>, period: int, multiplier: real, sqrt: real -> real, n: nat): (out: seq<Point>)
    requires 1 <= period && n <= |points|
    ensures |out| == if n < period then 0 else n - period + 1
  {
    if n < period then []
    else
      BandUpTo(points, period, multiplier, sqrt, n - 1) +
      [Point(points[n - 1].time, Edge(Values(points)[n - period..n], multiplier, sqrt))]
  }

  method Total(xs: seq<real>) returns (sum: real)
    ensures sum == Sum(xs)
  {
    sum := 0.0;
    for j := 0 to |xs|
      invariant sum == Sum(xs[..j])
    {
      assert xs[..j + 1] == xs[..j] + [xs[j]];
      SumSnoc(xs[..j], xs[j]);
      sum := sum + xs[j];
    }
    assert xs[..|xs|] == xs;
  }

  method Scatter(xs: seq<real>, mean: real) returns (variance: real)
    ensures variance == Squares(xs, mean)
  {
    variance := 0.0;
    for j := 0 to |xs|
      invariant variance == Squares(xs[..j], mean)
    {
      assert xs[..j + 1][..j] == xs[..j];
      var diff := xs[j] - mean;
      variance := variance + diff * diff;
    }
    assert xs[..|xs|] == xs;
  }

  lemma Edges(window: seq<real>, m: real, sqrt: real -> real, mean: real, sd: real)
    requires window != [] && mean == Mean(window) && sd == Deviation(window, sqrt)
    ensures mean + m * sd == Edge(window, m, sqrt)
    ensures mean - m * sd == Edge(window, -m, sqrt)
  {
    OtherEdge(mean, m, sd);
  }

  /** The mean of a window of closes and the edges of its band. */
  method Spread(window: seq<real>, multiplier: real, sqrt: real -> real) returns (mean: real, upper: real, lower: real)
    requires window != []
    ensures mean == Mean(window)
    ensures upper == Edge(window, multiplier, sqrt) && lower == Edge(window, -multiplier, sqrt)
  {
    var sum := Total(window);
    mean := sum / |window| as real;
    var variance := Scatter(window, mean);
    var sd := sqrt(variance / |window| as real);
    upper, lower := mean + multiplier * sd, mean - multiplier * sd;
    Edges(window, multiplier, sqrt, mean, sd);
  }

  lemma SmaSnoc(points: seq<Point>, period: int, n: nat)
    requires 1 <= period <= n <= |points|
    ensures SmaUpTo(points, period, n)
         == SmaUpTo(points, period, n - 1) + [Point(points[n - 1].time, Mean(Values(points)[n - period..n]))]
  {
  }

  lemma BandSnoc(points: seq<Point>, period: int, m: real, sqrt: real -> real, n: nat)
    requires 1 <= period <= n <= |points|
    ensures BandUpTo(points, period, m, sqrt, n)
         == BandUpTo(points, period, m, sqrt, n - 1) + [Point(points[n - 1].time, Edge(Values(points)[n - period..n], m, sqrt))]
  {
  }

  /** The three lines over the first `n` points. */
  ghost predicate Drawn(points: seq<Point>, period: int, m: real, sqrt: real -> real, n: nat, bands: Bands)
    requires 1 <= period && n <= |points|
  {
    && bands.middle == SmaUpTo(points, period, n)
    && bands.upper == BandUpTo(points, period, m, sqrt, n)
    && bands.lower == BandUpTo(points, period, -m, sqrt, n)
  }

  function Extended(bands: Bands, time: int, mean: real, upper: real, lower: real): Bands {
    Bands(bands.upper + [Point(time, upper)], bands.middle + [Point(time, mean)], bands.lower + [Point(time, lower)])
  }

  lemma DrawnOn(points: seq<Point>, period: int, m: real, sqrt: real -> real, i: nat, bands: Bands,
                mean: real, upper: real, lower: real)
    requires 1 <= period <= i + 1 <= |points| && Drawn(points, period, m, sqrt, i, bands)
    requires mean == Mean(Values(points)[i + 1 - period..i + 1])
    requires upper == Edge(Values(points)[i + 1 - period..i + 1], m, sqrt)
    requires lower == Edge(Values(points)[i + 1 - period..i + 1], -m, sqrt)
    ensures Drawn(points, period, m, sqrt, i + 1, Extended(bands, points[i].time, mean, upper, lower))
  {
    SmaSnoc(points, period, i + 1);
    BandSnoc(points, period, m, sqrt, i + 1);
    BandSnoc(points, period, -m, sqrt, i + 1);
  }

  /** The middle line is the moving average, and the bands lie either side of it. */
  method Bollinger(bars: seq<Bar>, period: int, multiplier: real, sqrt: real -> real) returns (bands: Bands)
    requires 1 <= period
    ensures bands.middle == SmaOf(ClosePoints(bars), period)
    ensures bands.upper == BandUpTo(ClosePoints(bars), period, multiplier, sqrt, |bars|)
    ensures bands.lower == BandUpTo(ClosePoints(bars), period, -multiplier, sqrt, |bars|)
  {
    bands := Bands([], [], []);
    var points := ClosePoints(bars);
    if |bars| < period { return; }
    for i := period - 1 to |bars|
      invariant Drawn(points, period, multiplier, sqrt, i, bands)
    {
      var mean, upper, lower := Spread(Values(points)[i + 1 - period..i + 1], multiplier, sqrt);
      DrawnOn(points, period, multiplier, sqrt, i, bands, mean, upper, lower);
      bands := Extended(bands, points[i].time, mean, upper, lower);
    }
  }

  lemma OtherEdge(mean: real, m: real, sd: real)
    ensures mean - m * sd == mean + -m * sd
  {
  }

  // How much can lie outside.

  predicate IsBeyond(diff: real, reach: real) {
    diff > reach || -diff > reach
  }

  /** How many values are further than `reach` from `mean`. */
  function Beyond(xs: seq<real>, mean: real, reach: real): nat {
    if xs == [] then 0
    else Beyond(xs[..|xs| - 1], mean, reach) + if IsBeyond(xs[|xs| - 1] - mean, reach) then 1 else 0
  }

  lemma SquareBeyond(diff: real, reach: real)
    requires reach >= 0.0
    ensures IsBeyond(diff, reach) ==> Square(diff) > reach * reach >= 0.0
  {
    SquareOfNegative(diff);
    if diff > reach {
      SquareGrows(diff, reach);
    } else if -diff > reach {
      SquareGrows(-diff, reach);
    }
  }

  lemma {:induction false} BeyondCosts(xs: seq<real>, mean: real, reach: real, square: real)
    requires reach >= 0.0 && square == reach * reach
    ensures Times(Beyond(xs, mean, reach), square) <= Squares(xs, mean)
    ensures Beyond(xs, mean, reach) > 0 ==> Squares(xs, mean) > 0.0
  {
    if xs != [] {
      BeyondCosts(xs[..|xs| - 1], mean, reach, square);
      SquareBeyond(xs[|xs| - 1] - mean, reach);
    }
  }

  lemma RootOfShare(sqrt: real -> real, total: real, n: nat)
    requires IsRoot(sqrt) && total >= 0.0 && n > 0
    ensures var sd := RootShare(total, n, sqrt); sd >= 0.0 && n as real * (sd * sd) == total
  {
    QuotientNonNegative(total, n as real);
    QuotientTimes(total, n as real);
  }

  ghost predicate IsDeviation(sd: real, n: real, total: real) {
    sd >= 0.0 && n * (sd * sd) == total
  }

  lemma DeviationSquared(xs: seq<real>, mean: real, sqrt: real -> real)
    requires xs != [] && IsRoot(sqrt)
    ensures IsDeviation(DeviationFrom(xs, mean, sqrt), |xs| as real, Squares(xs, mean))
  {
    RootOfShare(sqrt, Squares(xs, mean), |xs|);
  }

  lemma FewAtMost(count: nat, square: real, mm: real, v: real, n: real, total: real)
    requires n > 0.0 && v >= 0.0 && n * v == total && square == mm * v
    requires count as real * square <= total
    requires count > 0 ==> total > 0.0
    ensures count as real * mm <= n
  {
    if count == 0 {
      assert count as real * mm == 0.0;
    } else {
      assert v != 0.0;
      Regroup(count as real, square, mm, v);
      CancelBelow(count as real * mm, n, v);
    }
  }

  lemma FewBeyond(xs: seq<real>, mean: real, reach: real, mm: real, v: real, square: real)
    requires xs != [] && reach >= 0.0 && v >= 0.0
    requires square == reach * reach && square == mm * v && |xs| as real * v == Squares(xs, mean)
    ensures Beyond(xs, mean, reach) as real * mm <= |xs| as real
  {
    BeyondCosts(xs, mean, reach, square);
    TimesIs(Beyond(xs, mean, reach), square);
    FewAtMost(Beyond(xs, mean, reach), square, mm, v, |xs| as real, Squares(xs, mean));
  }

  /** At most one value in `m` squared is more than `m` deviations from the mean. */
  ghost predicate FewOutside(xs: seq<real>, mean: real, m: real, sd: real) {
    Beyond(xs, mean, m * sd) as real * (m * m) <= |xs| as real
  }

  lemma FewBeyondReach(xs: seq<real>, mean: real, m: real, sd: real, reach: real)
    requires xs != [] && m >= 0.0 && reach == m * sd && IsDeviation(sd, |xs| as real, Squares(xs, mean))
    ensures Beyond(xs, mean, reach) as real * (m * m) <= |xs| as real
  {
    ProductNonNegative(m, sd);
    SquareOfProduct(m, sd);
    SquareNonNegative(sd);
    FewBeyond(xs, mean, reach, m * m, sd * sd, reach * reach);
  }

  lemma FewBeyondEdges(xs: seq<real>, mean: real, m: real, sd: real)
    requires xs != [] && m >= 0.0 && IsDeviation(sd, |xs| as real, Squares(xs, mean))
    ensures FewOutside(xs, mean, m, sd)
  {
    hide IsDeviation, Squares, Beyond;
    FewBeyondReach(xs, mean, m, sd, m * sd);
  }

  /** However the closes fall, few of a window's lie outside its bands: at most the
      period over the multiplier squared, so a quarter of them at the usual two. */
  lemma FewLieOutside(xs: seq<real>, multiplier: real, sqrt: real -> real)
    requires xs != [] && multiplier >= 0.0 && IsRoot(sqrt)
    ensures FewOutside(xs, Mean(xs), multiplier, Deviation(xs, sqrt))
  {
    DeviationSquared(xs, Mean(xs), sqrt);
    FewBeyondEdges(xs, Mean(xs), multiplier, Deviation(xs, sqrt));
  }

  // Requoting the bands.

  lemma SquareOfScaled(c: real, diff: real)
    ensures Square(c * diff) == (c * c) * Square(diff)
  {
    Regroup(c * c, Square(diff), diff, diff);
  }

  lemma LineGap(x: real, y: real, c: real, d: real)
    ensures (c * x + d) - (c * y + d) == c * (x - y)
  {
    Distribute(c, x, -y);
  }

  lemma SquareThroughLine(x: real, mean: real, f: real -> real, c: real, d: real)
    requires Requotes(f, c, d)
    ensures IsTimes(Square(f(x) - f(mean)), c * c, Square(x - mean))
  {
    LineGap(x, mean, c, d);
    SquareOfScaled(c, x - mean);
  }

  predicate IsTimes(y: real, c: real, x: real) {
    y == c * x
  }

  lemma TimesAdd(y: real, z: real, k: real, a: real, b: real)
    requires IsTimes(y, k, a) && IsTimes(z, k, b)
    ensures IsTimes(y + z, k, a + b)
  {
    Distribute(k, a, b);
  }

  lemma SquaresSnoc(xs: seq<real>, x: real, mean: real)
    ensures Squares(xs + [x], mean) == Squares(xs, mean) + Square(x - mean)
  {
    assert (xs + [x])[..|xs|] == xs;
  }

  lemma {:induction false} SquaresMapped(xs: seq<real>, mean: real, f: real -> real, c: real, d: real, k: real)
    requires Requotes(f, c, d) && k == c * c
    ensures IsTimes(Squares(Mapped(xs, f), f(mean)), k, Squares(xs, mean))
  {
    if xs != [] {
      var front, x := xs[..|xs| - 1], xs[|xs| - 1];
      SquaresMapped(front, mean, f, c, d, k);
      assert xs == front + [x] && Mapped(xs, f) == Mapped(front, f) + [f(x)];
      SquaresSnoc(front, x, mean);
      SquaresSnoc(Mapped(front, f), f(x), f(mean));
      SquareThroughLine(x, mean, f, c, d);
      TimesAdd(Squares(Mapped(front, f), f(mean)), Square(f(x) - f(mean)), k, Squares(front, mean), Square(x - mean));
    }
  }

  lemma SpreadMapped(xs: seq<real>, f: real -> real, c: real, d: real, k: real)
    requires xs != [] && Requotes(f, c, d) && k == c * c
    ensures IsTimes(Squares(Mapped(xs, f), Mean(Mapped(xs, f))), k, Squares(xs, Mean(xs)))
  {
    MeanMapped(xs, f, c, d);
    SquaresMapped(xs, Mean(xs), f, c, d, k);
  }

  lemma SameShare(n: real, cc: real, s: real, v: real, w: real)
    requires n > 0.0 && n * v == s && n * w == cc * s
    ensures w == cc * v
  {
    TimesAssociates(cc, n, v);
    CancelFactor(n, w, cc * v);
  }

  lemma DeviationScales(n: real, s: real, moved: real, c: real, sd: real, movedSd: real)
    requires n > 0.0 && c > 0.0 && moved == (c * c) * s
    requires IsDeviation(sd, n, s) && IsDeviation(movedSd, n, moved)
    ensures movedSd == c * sd
  {
    SameShare(n, c * c, s, sd * sd, movedSd * movedSd);
    SquareOfProduct(c, sd);
    ProductNonNegative(c, sd);
    RootIsUnique(movedSd, c * sd);
  }

  lemma RootScales(sqrt: real -> real, n: nat, s: real, moved: real, c: real)
    requires IsRoot(sqrt) && n > 0 && s >= 0.0 && c > 0.0 && moved == (c * c) * s
    ensures IsTimes(RootShare(moved, n, sqrt), c, RootShare(s, n, sqrt))
  {
    ProductPositive(c, c);
    ProductNonNegative(c * c, s);
    RootOfShare(sqrt, s, n);
    RootOfShare(sqrt, moved, n);
    DeviationScales(n as real, s, moved, c, RootShare(s, n, sqrt), RootShare(moved, n, sqrt));
  }

  lemma DeviationFromScales(xs: seq<real>, ys: seq<real>, mean: real, moved: real, c: real, sqrt: real -> real)
    requires xs != [] && |ys| == |xs| && c > 0.0 && IsRoot(sqrt)
    requires IsTimes(Squares(ys, moved), c * c, Squares(xs, mean))
    ensures IsTimes(DeviationFrom(ys, moved, sqrt), c, DeviationFrom(xs, mean, sqrt))
  {
    RootScales(sqrt, |xs|, Squares(xs, mean), Squares(ys, moved), c);
  }

  lemma DeviationMapped(xs: seq<real>, f: real -> real, c: real, d: real, sqrt: real -> real)
    requires xs != [] && c > 0.0 && Requotes(f, c, d) && IsRoot(sqrt)
    ensures IsTimes(Deviation(Mapped(xs, f), sqrt), c, Deviation(xs, sqrt))
  {
    SpreadMapped(xs, f, c, d, c * c);
    DeviationFromScales(xs, Mapped(xs, f), Mean(xs), Mean(Mapped(xs, f)), c, sqrt);
  }

  lemma BandStep(mean: real, m: real, sd: real, moved: real, c: real, d: real)
    requires IsTimes(moved, c, sd)
    ensures (c * mean + d) + m * moved == c * (mean + m * sd) + d
  {
    Regroup(m, moved, c, sd);
    Distribute(c, mean, m * sd);
  }

  lemma EdgeMoves(xs: seq<real>, m: real, sqrt: real -> real, f: real -> real, c: real, d: real)
    requires xs != [] && c > 0.0 && Requotes(f, c, d) && IsRoot(sqrt)
    ensures Edge(Mapped(xs, f), m, sqrt) == f(Edge(xs, m, sqrt))
  {
    MeanMapped(xs, f, c, d);
    DeviationMapped(xs, f, c, d, sqrt);
    BandStep(Mean(xs), m, Deviation(xs, sqrt), Deviation(Mapped(xs, f), sqrt), c, d);
  }

  ghost predicate EdgeMovesAt(points: seq<Point>, period: int, m: real, sqrt: real -> real, n: nat, f: real -> real)
    requires 1 <= period <= n <= |points|
  {
    Edge(Values(Move(points, f))[n - period..n], m, sqrt) == f(Edge(Values(points)[n - period..n], m, sqrt))
  }

  lemma WindowEdgeMoves(points: seq<Point>, period: int, m: real, sqrt: real -> real, n: nat, f: real -> real, c: real, d: real)
    requires 1 <= period <= n <= |points| && c > 0.0 && Requotes(f, c, d) && IsRoot(sqrt)
    ensures EdgeMovesAt(points, period, m, sqrt, n, f)
  {
    WindowMoves(points, n - period, n, f);
    EdgeMoves(Values(points)[n - period..n], m, sqrt, f, c, d);
  }

  lemma BandOfMovesOn(points: seq<Point>, period: int, m: real, sqrt: real -> real, n: nat, f: real -> real)
    requires 1 <= period <= n <= |points| && EdgeMovesAt(points, period, m, sqrt, n, f)
    requires BandUpTo(Move(points, f), period, m, sqrt, n - 1) == Move(BandUpTo(points, period, m, sqrt, n - 1), f)
    ensures BandUpTo(Move(points, f), period, m, sqrt, n) == Move(BandUpTo(points, period, m, sqrt, n), f)
  {
    BandSnoc(points, period, m, sqrt, n);
    BandSnoc(Move(points, f), period, m, sqrt, n);
    assert Move(points, f)[n - 1].time == points[n - 1].time;
    MoveSnoc(BandUpTo(points, period, m, sqrt, n - 1),
             Point(points[n - 1].time, Edge(Values(points)[n - period..n], m, sqrt)), f);
  }

  /** Requoted prices give the same bands, requoted. */
  lemma {:induction false} BandMoves(points: seq<Point>, period: int, m: real, sqrt: real -> real, n: nat, f: real -> real, c: real, d: real)
    requires 1 <= period && n <= |points| && c > 0.0 && Requotes(f, c, d) && IsRoot(sqrt)
    ensures BandUpTo(Move(points, f), period, m, sqrt, n) == Move(BandUpTo(points, period, m, sqrt, n), f)
  {
    if n >= period {
      BandMoves(points, period, m, sqrt, n - 1, f, c, d);
      WindowEdgeMoves(points, period, m, sqrt, n, f, c, d);
      BandOfMovesOn(points, period, m, sqrt, n, f);
    }
  }

  // ----- The volume-weighted average price -----

  function Typical(bar: Bar): real {
    (bar.high + bar.low + bar.close) / 3.0
  }

  /** A volume and the price it counts at. */
  datatype Lot = Lot(price: real, volume: real)

  function Lots(bars: seq<Bar>): seq<Lot> {
    seq(|bars|, i requires 0 <= i < |bars| => Lot(Typical(bars[i]), bars[i].volume))
  }

  function Worth(lot: Lot): real {
    lot.price * lot.volume
  }

  function PriceVolume(lots: seq<Lot>): real {
    if lots == [] then 0.0 else PriceVolume(lots[..|lots| - 1]) + Worth(lots[|lots| - 1])
  }

  function Volume(lots: seq<Lot>): real {
    if lots == [] then 0.0 else Volume(lots[..|lots| - 1]) + lots[|lots| - 1].volume
  }

  function VwapAt(lots: seq<Lot>): real
    requires lots != []
  {
    if Volume(lots) > 0.0 then PriceVolume(lots) / Volume(lots) else lots[|lots| - 1].price
  }

  /** The running average price at each of the first `n` bars. */
  function VwapUpTo(bars: seq<Bar>, n: nat): (out: seq<Point>)
    requires n <= |bars|
    ensures |out| == n
  {
    if n == 0 then [] else VwapUpTo(bars, n - 1) + [Point(bars[n - 1].time, VwapAt(Lots(bars)[..n]))]
  }

  method Vwap(bars: seq<Bar>) returns (out: seq<Point>)
    ensures out == VwapUpTo(bars, |bars|)
  {
    out := [];
    ghost var lots := Lots(bars);
    var cumulativePriceVolume, cumulativeVolume := 0.0, 0.0;
    for i := 0 to |bars|
      invariant cumulativePriceVolume == PriceVolume(lots[..i]) && cumulativeVolume == Volume(lots[..i])
      invariant out == VwapUpTo(bars, i)
    {
      assert lots[..i + 1][..i] == lots[..i];
      var typical := Typical(bars[i]);
      cumulativePriceVolume := cumulativePriceVolume + typical * bars[i].volume;
      cumulativeVolume := cumulativeVolume + bars[i].volume;
      out := out + [Point(bars[i].time, if cumulativeVolume > 0.0 then cumulativePriceVolume / cumulativeVolume else typical)];
    }
  }

  /** What traded in the first `n` bars, and what it came to at the mean of each bar's high,
      low and close. */
  function Traded(bars: seq<Bar>, n: nat): real
    requires n <= |bars|
  {
    if n == 0 then 0.0 else Traded(bars, n - 1) + bars[n - 1].volume
  }

  function Turnover(bars: seq<Bar>, n: nat): real
    requires n <= |bars|
  {
    if n == 0 then 0.0
    else Turnover(bars, n - 1) + (bars[n - 1].high + bars[n - 1].low + bars[n - 1].close) / 3.0 * bars[n - 1].volume
  }

  lemma {:induction false} LotsAre(bars: seq<Bar>, n: nat)
    requires n <= |bars|
    ensures Volume(Lots(bars)[..n]) == Traded(bars, n) && PriceVolume(Lots(bars)[..n]) == Turnover(bars, n)
  {
    if n > 0 {
      LotsAre(bars, n - 1);
      assert Lots(bars)[..n][..n - 1] == Lots(bars)[..n - 1];
    }
  }

  /** At each bar the price at which what has traded so far would have come to the same;
      while nothing has, the bar's own. */
  lemma VwapIs(bars: seq<Bar>, n: nat)
    requires n < |bars|
    ensures var p, bar := VwapUpTo(bars, |bars|)[n], bars[n];
      && p.time == bar.time
      && (Traded(bars, n + 1) > 0.0 ==> p.value * Traded(bars, n + 1) == Turnover(bars, n + 1))
      && (Traded(bars, n + 1) <= 0.0 ==> p.value * 3.0 == bar.high + bar.low + bar.close)
  {
    VwapUpToAt(bars, |bars|, n);
    LotsAre(bars, n + 1);
  }

  lemma {:induction false} VwapUpToAt(bars: seq<Bar>, n: nat, k: nat)
    requires k < n <= |bars|
    ensures VwapUpTo(bars, n)[k] == Point(bars[k].time, VwapAt(Lots(bars)[..k + 1]))
  {
    hide VwapAt, Lots;
    if k < n - 1 {
      VwapUpToAt(bars, n - 1, k);
    }
  }

  predicate LotWithin(lot: Lot, lo: real, hi: real) {
    lo <= lot.price <= hi && lot.volume >= 0.0
  }

  /** A volume traded between two prices. */
  predicate TradedWithin(volume: real, worth: real, lo: real, hi: real) {
    volume * lo <= worth <= volume * hi
  }

  lemma LotIsWithin(lot: Lot, lo: real, hi: real)
    requires LotWithin(lot, lo, hi)
    ensures TradedWithin(lot.volume, Worth(lot), lo, hi)
  {
    ProductNonNegative(lot.price - lo, lot.volume);
    ProductNonNegative(hi - lot.price, lot.volume);
  }

  lemma WithinAdds(v: real, pv: real, volume: real, worth: real, lo: real, hi: real)
    requires TradedWithin(v, pv, lo, hi) && TradedWithin(volume, worth, lo, hi)
    ensures TradedWithin(v + volume, pv + worth, lo, hi)
  {
    Distribute(lo, v, volume);
    Distribute(hi, v, volume);
  }

  lemma {:induction false} PriceVolumeWithin(lots: seq<Lot>, lo: real, hi: real)
    requires forall i :: 0 <= i < |lots| ==> LotWithin(lots[i], lo, hi)
    ensures TradedWithin(Volume(lots), PriceVolume(lots), lo, hi)
  {
    if lots != [] {
      var front, lot := lots[..|lots| - 1], lots[|lots| - 1];
      PriceVolumeWithin(front, lo, hi);
      LotIsWithin(lot, lo, hi);
      WithinAdds(Volume(front), PriceVolume(front), lot.volume, Worth(lot), lo, hi);
    }
  }

  lemma AverageWithin(lots: seq<Lot>, lo: real, hi: real)
    requires lots != [] && forall i :: 0 <= i < |lots| ==> LotWithin(lots[i], lo, hi)
    ensures lo <= VwapAt(lots) <= hi
  {
    PriceVolumeWithin(lots, lo, hi);
    assert LotWithin(lots[|lots| - 1], lo, hi);
    if Volume(lots) > 0.0 {
      QuotientWithin(PriceVolume(lots), Volume(lots), lo, hi);
    }
  }

  predicate BarWithin(bar: Bar, lo: real, hi: real) {
    lo <= bar.low <= bar.close <= bar.high <= hi && bar.volume >= 0.0
  }

  /** The average price stays between the lowest low and the highest high so far. */
  lemma VwapStaysInRange(bars: seq<Bar>, n: nat, lo: real, hi: real)
    requires n < |bars| && forall i :: 0 <= i <= n ==> BarWithin(bars[i], lo, hi)
    ensures lo <= VwapAt(Lots(bars)[..n + 1]) <= hi
  {
    var lots := Lots(bars)[..n + 1];
    forall i | 0 <= i < |lots|
      ensures LotWithin(lots[i], lo, hi)
    {
      assert BarWithin(bars[i], lo, hi) && lots[i] == Lot(Typical(bars[i]), bars[i].volume);
    }
    AverageWithin(lots, lo, hi);
  }

  // Requoting.

  function Requoted(bars: seq<Bar>, f: real -> real): seq<Bar> {
    seq(|bars|, i requires 0 <= i < |bars| =>
          bars[i].(high := f(bars[i].high), low := f(bars[i].low), close := f(bars[i].close)))
  }

  function MovedLots(lots: seq<Lot>, f: real -> real): seq<Lot> {
    seq(|lots|, i requires 0 <= i < |lots| => Lot(f(lots[i].price), lots[i].volume))
  }

  lemma TypicalMoves(bar: Bar, f: real -> real, c: real, d: real)
    requires Requotes(f, c, d)
    ensures Typical(bar.(high := f(bar.high), low := f(bar.low), close := f(bar.close))) == f(Typical(bar))
  {
    Distribute(c, bar.high + bar.low, bar.close);
    Distribute(c, bar.high, bar.low);
  }

  lemma LotsMove(bars: seq<Bar>, f: real -> real, c: real, d: real)
    requires Requotes(f, c, d)
    ensures Lots(Requoted(bars, f)) == MovedLots(Lots(bars), f)
  {
    forall i | 0 <= i < |bars|
      ensures Lots(Requoted(bars, f))[i] == MovedLots(Lots(bars), f)[i]
    {
      TypicalMoves(bars[i], f, c, d);
    }
  }

  lemma LineTimes(x: real, y: real, volume: real, c: real, d: real)
    requires y == c * x + d
    ensures y * volume == c * (x * volume) + volume * d
  {
    Regroup(volume, y - d, c, x);
  }

  lemma LinesAdd(pv: real, v: real, traded: real, volume: real, pv2: real, v2: real, c: real, d: real)
    requires pv2 == pv + traded && v2 == v + volume
    ensures (c * pv + v * d) + (c * traded + volume * d) == c * pv2 + v2 * d
  {
    Distribute(c, pv, traded);
    Distribute(d, v, volume);
  }

  lemma LotMoves(pv: real, v: real, lot: Lot, moved: Lot, pv2: real, v2: real, c: real, d: real)
    requires moved.price == c * lot.price + d && moved.volume == lot.volume
    requires pv2 == pv + Worth(lot) && v2 == v + lot.volume
    ensures (c * pv + v * d) + Worth(moved) == c * pv2 + v2 * d
  {
    LineTimes(lot.price, moved.price, lot.volume, c, d);
    LinesAdd(pv, v, Worth(lot), lot.volume, pv2, v2, c, d);
  }

  lemma PriceVolumeSnoc(lots: seq<Lot>, lot: Lot)
    ensures PriceVolume(lots + [lot]) == PriceVolume(lots) + Worth(lot)
    ensures Volume(lots + [lot]) == Volume(lots) + lot.volume
  {
    assert (lots + [lot])[..|lots|] == lots;
  }

  /** The totals of requoted lots, in terms of the old. */
  ghost predicate TotalsMove(lots: seq<Lot>, moved: seq<Lot>, c: real, d: real) {
    && Volume(moved) == Volume(lots)
    && PriceVolume(moved) == c * PriceVolume(lots) + Volume(lots) * d
  }

  lemma TotalsMoveOn(lots: seq<Lot>, moved: seq<Lot>, lot: Lot, next: Lot, c: real, d: real)
    requires TotalsMove(lots, moved, c, d)
    requires next.price == c * lot.price + d && next.volume == lot.volume
    ensures TotalsMove(lots + [lot], moved + [next], c, d)
  {
    PriceVolumeSnoc(lots, lot);
    PriceVolumeSnoc(moved, next);
    LotMoves(PriceVolume(lots), Volume(lots), lot, next, PriceVolume(lots + [lot]), Volume(lots + [lot]), c, d);
  }

  lemma {:induction false} PriceVolumeMoves(lots: seq<Lot>, f: real -> real, c: real, d: real)
    requires Requotes(f, c, d)
    ensures TotalsMove(lots, MovedLots(lots, f), c, d)
  {
    if lots != [] {
      var front, lot := lots[..|lots| - 1], lots[|lots| - 1];
      var moved := Lot(f(lot.price), lot.volume);
      PriceVolumeMoves(front, f, c, d);
      assert MovedLots(lots, f) == MovedLots(front, f) + [moved] && lots == front + [lot];
      TotalsMoveOn(front, MovedLots(front, f), lot, moved, c, d);
    }
  }

  lemma VwapAtMoves(lots: seq<Lot>, f: real -> real, c: real, d: real)
    requires lots != [] && Requotes(f, c, d)
    ensures VwapAt(MovedLots(lots, f)) == f(VwapAt(lots))
  {
    PriceVolumeMoves(lots, f, c, d);
    if Volume(lots) > 0.0 {
      LineOver(c, d, Volume(lots), PriceVolume(lots));
    }
  }

  /** Requoted candles give the same average price, requoted. */
  lemma {:induction false} VwapMoves(bars: seq<Bar>, n: nat, f: real -> real, c: real, d: real)
    requires n <= |bars| && Requotes(f, c, d)
    ensures VwapUpTo(Requoted(bars, f), n) == Move(VwapUpTo(bars, n), f)
  {
    if n > 0 {
      VwapMoves(bars, n - 1, f, c, d);
      LotsMove(bars, f, c, d);
      assert Lots(Requoted(bars, f))[..n] == MovedLots(Lots(bars)[..n], f);
      VwapAtMoves(Lots(bars)[..n], f, c, d);
      MoveSnoc(VwapUpTo(bars, n - 1), Point(bars[n - 1].time, VwapAt(Lots(bars)[..n])), f);
    }
  }
}
