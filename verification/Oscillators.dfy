/** The relative strength index, in exact real arithmetic. */
module Oscillators {
  import opened Reals
  import opened Indicators

  // ----- The relative strength index -----

  /** What each bar gained on the one before, and what it lost. */
  function Gains(xs: seq<real>): (gains: seq<real>)
    requires xs != []
    ensures |gains| == |xs| - 1
  {
    seq(|xs| - 1, i requires 0 <= i < |xs| - 1 => Rise(xs[i], xs[i + 1]))
  }

  function Losses(xs: seq<real>): (losses: seq<real>)
    requires xs != []
    ensures |losses| == |xs| - 1
  {
    seq(|xs| - 1, i requires 0 <= i < |xs| - 1 => Rise(xs[i + 1], xs[i]))
  }

  function Rise(from: real, to: real): (r: real)
    ensures r >= 0.0
  {
    if to > from then to - from else 0.0
  }

  function Smoothed(before: real, x: real, period: int): real
    requires 1 <= period
  {
    (before * (period - 1) as real + x) / period as real
  }

  /** Wilder's average: a mean, then a bar's worth replaced at each bar. */
  function Wilder(ms: seq<real>, period: int, i: nat): real
    requires 1 <= period <= i + 1 <= |ms|
  {
    if i == period - 1 then Mean(ms[..period]) else Smoothed(Wilder(ms, period, i - 1), ms[i], period)
  }

  function RsiFrom(gain: real, loss: real): real
    requires gain >= 0.0 && loss >= 0.0
  {
    if loss == 0.0 then 100.0
    else
      QuotientNonNegative(gain, loss);
      100.0 - 100.0 / (1.0 + gain / loss)
  }

  function RsiAt(xs: seq<real>, period: int, i: nat): real
    requires 1 <= period <= i < |xs|
  {
    WilderWithin(Gains(xs), period, i - 1);
    WilderWithin(Losses(xs), period, i - 1);
    RsiFrom(Wilder(Gains(xs), period, i - 1), Wilder(Losses(xs), period, i - 1))
  }

  function RsiUpTo(points: seq<Point>, period: int, n: nat): seq<Point>
    requires 1 <= period && n <= |points|
  {
    if n < period + 1 then []
    else RsiUpTo(points, period, n - 1) + [Point(points[n - 1].time, RsiAt(Values(points), period, n - 1))]
  }

  lemma SmoothedNonNegative(before: real, x: real, period: int)
    requires 1 <= period && before >= 0.0 && x >= 0.0
    ensures Smoothed(before, x, period) >= 0.0
  {
    ProductNonNegative(before, (period - 1) as real);
    QuotientNonNegative(before * (period - 1) as real + x, period as real);
  }

  lemma {:induction false} SumNonNegative(ms: seq<real>)
    requires forall i :: 0 <= i < |ms| ==> ms[i] >= 0.0
    ensures Sum(ms) >= 0.0
  {
    if ms != [] {
      SumNonNegative(ms[..|ms| - 1]);
    }
  }

  lemma {:induction false} WilderWithin(ms: seq<real>, period: int, i: nat)
    requires 1 <= period <= i + 1 <= |ms| && forall j :: 0 <= j < |ms| ==> ms[j] >= 0.0
    ensures Wilder(ms, period, i) >= 0.0
  {
    if i == period - 1 {
      SumNonNegative(ms[..period]);
      QuotientNonNegative(Sum(ms[..period]), period as real);
    } else {
      WilderWithin(ms, period, i - 1);
      SmoothedNonNegative(Wilder(ms, period, i - 1), ms[i], period);
    }
  }

  lemma MovesSnoc(xs: seq<real>, i: nat)
    requires 1 <= i < |xs|
    ensures Sum(Gains(xs)[..i]) == Sum(Gains(xs)[..i - 1]) + Rise(xs[i - 1], xs[i])
    ensures Sum(Losses(xs)[..i]) == Sum(Losses(xs)[..i - 1]) + Rise(xs[i], xs[i - 1])
  {
    var gains, losses := Gains(xs), Losses(xs);
    assert gains[..i] == gains[..i - 1] + [gains[i - 1]] && losses[..i] == losses[..i - 1] + [losses[i - 1]];
    SumSnoc(gains[..i - 1], gains[i - 1]);
    SumSnoc(losses[..i - 1], losses[i - 1]);
  }

  /** The mean gain and the mean loss of the first `period` changes. */
  method Opening(xs: seq<real>, period: int) returns (avgGain: real, avgLoss: real)
    requires 1 <= period < |xs|
    ensures avgGain == Mean(Gains(xs)[..period]) && avgLoss == Mean(Losses(xs)[..period])
  {
    avgGain, avgLoss := 0.0, 0.0;
    for i := 1 to period + 1
      invariant avgGain == Sum(Gains(xs)[..i - 1]) && avgLoss == Sum(Losses(xs)[..i - 1])
    {
      MovesSnoc(xs, i);
      var change := xs[i] - xs[i - 1];
      if change >= 0.0 { avgGain := avgGain + change; } else { avgLoss := avgLoss - change; }
    }
    avgGain := avgGain / period as real;
    avgLoss := avgLoss / period as real;
  }

  lemma RsiUpToSnoc(points: seq<Point>, period: int, i: nat)
    requires 1 <= period <= i < |points|
    ensures RsiUpTo(points, period, i + 1) == RsiUpTo(points, period, i) + [Point(points[i].time, RsiAt(Values(points), period, i))]
  {
  }

  /** The averages behind the reading at bar `i`. */
  ghost predicate Averages(xs: seq<real>, period: int, i: nat, avgGain: real, avgLoss: real)
    requires 1 <= period <= i < |xs|
  {
    && avgGain == Wilder(Gains(xs), period, i - 1) && avgGain >= 0.0
    && avgLoss == Wilder(Losses(xs), period, i - 1) && avgLoss >= 0.0
  }

  lemma FirstAverages(xs: seq<real>, period: int)
    requires 1 <= period < |xs|
    ensures Averages(xs, period, period, Mean(Gains(xs)[..period]), Mean(Losses(xs)[..period]))
  {
    WilderWithin(Gains(xs), period, period - 1);
    WilderWithin(Losses(xs), period, period - 1);
  }

  lemma NextAverages(xs: seq<real>, period: int, i: nat, avgGain: real, avgLoss: real, gain: real, loss: real)
    requires 1 <= period < i < |xs| && Averages(xs, period, i - 1, avgGain, avgLoss)
    requires gain == Rise(xs[i - 1], xs[i]) && loss == Rise(xs[i], xs[i - 1])
    ensures Averages(xs, period, i, Smoothed(avgGain, gain, period), Smoothed(avgLoss, loss, period))
  {
    WilderWithin(Gains(xs), period, i - 1);
    WilderWithin(Losses(xs), period, i - 1);
  }

  lemma ReadingIs(xs: seq<real>, period: int, i: nat, avgGain: real, avgLoss: real)
    requires 1 <= period <= i < |xs| && Averages(xs, period, i, avgGain, avgLoss)
    ensures avgGain >= 0.0 && avgLoss >= 0.0
    ensures RsiAt(xs, period, i) == RsiFrom(avgGain, avgLoss)
  {
  }

  method Rsi(bars: seq<Bar>, period: int) returns (out: seq<Point>)
    requires 1 <= period
    ensures out == RsiUpTo(ClosePoints(bars), period, |bars|)
  {
    if |bars| < period + 1 { return []; }
    var points := ClosePoints(bars);
    var closes := Values(points);
    var avgGain, avgLoss := Opening(closes, period);
    FirstAverages(closes, period);
    ReadingIs(closes, period, period, avgGain, avgLoss);
    out := [Point(bars[period].time, RsiFrom(avgGain, avgLoss))];
    assert RsiUpTo(points, period, period) == [];
    RsiUpToSnoc(points, period, period);
    for i := period + 1 to |bars|
      invariant Averages(closes, period, i - 1, avgGain, avgLoss)
      invariant out == RsiUpTo(points, period, i)
    {
      hide Averages, Smoothed, RsiFrom, RsiAt, RsiUpTo;
      var change := closes[i] - closes[i - 1];
      var gain := if change > 0.0 then change else 0.0;
      var loss := if change < 0.0 then -change else 0.0;
      NextAverages(closes, period, i, avgGain, avgLoss, gain, loss);
      avgGain, avgLoss := Smoothed(avgGain, gain, period), Smoothed(avgLoss, loss, period);
      ReadingIs(closes, period, i, avgGain, avgLoss);
      RsiUpToSnoc(points, period, i);
      out := out + [Point(bars[i].time, RsiFrom(avgGain, avgLoss))];
    }
  }

  lemma ReadingOf(gain: real, loss: real, ratio: real, q: real)
    requires loss > 0.0 && ratio * loss == gain && q * (1.0 + ratio) == 100.0
    ensures q * (gain + loss) == 100.0 * loss
  {
    Regroup(q, gain + loss, 1.0 + ratio, loss);
  }

  /** The reading is what share of the movement was down, taken from a hundred. */
  lemma RsiIsTheShare(gain: real, loss: real)
    requires gain >= 0.0 && loss >= 0.0
    ensures (100.0 - RsiFrom(gain, loss)) * (gain + loss) == 100.0 * loss
  {
    if loss > 0.0 {
      var ratio := gain / loss;
      QuotientNonNegative(gain, loss);
      QuotientTimes(gain, loss);
      QuotientTimes(100.0, 1.0 + ratio);
      ReadingOf(gain, loss, ratio, 100.0 / (1.0 + ratio));
    }
  }

  lemma ShareIsPercent(down: real, total: real, loss: real)
    requires 0.0 <= loss <= total && total > 0.0 && down * total == 100.0 * loss
    ensures 0.0 <= down <= 100.0
  {
    CancelBelow(0.0, down, total);
    CancelBelow(down, 100.0, total);
  }

  /** The index never leaves its scale. */
  lemma RsiIsAPercentage(xs: seq<real>, period: int, i: nat)
    requires 1 <= period <= i < |xs|
    ensures 0.0 <= RsiAt(xs, period, i) <= 100.0
  {
    WilderWithin(Gains(xs), period, i - 1);
    WilderWithin(Losses(xs), period, i - 1);
    RsiFromIsAPercentage(Wilder(Gains(xs), period, i - 1), Wilder(Losses(xs), period, i - 1));
  }

  lemma RsiFromIsAPercentage(gain: real, loss: real)
    requires gain >= 0.0 && loss >= 0.0
    ensures 0.0 <= RsiFrom(gain, loss) <= 100.0
  {
    if loss > 0.0 {
      RsiIsTheShare(gain, loss);
      ShareIsPercent(100.0 - RsiFrom(gain, loss), gain + loss, loss);
    }
  }

  // Requoting and mirroring.

  function Scale(c: real): real -> real {
    x => c * x
  }

  lemma ScaleRequotes(c: real)
    ensures Requotes(Scale(c), c, 0.0)
  {
  }

  lemma SmoothedStep(before: real, x: real, period: int, c: real)
    requires 1 <= period
    ensures Smoothed(c * before, c * x, period) == c * Smoothed(before, x, period)
  {
    var n, m := period as real, (period - 1) as real;
    assert (c * before) * m + c * x == c * (before * m + x);
    LineOver(c, 0.0, n, before * m + x);
  }

  lemma SmoothedScales(before: real, x: real, period: int, g: real -> real, c: real)
    requires 1 <= period && Requotes(g, c, 0.0)
    ensures Smoothed(g(before), g(x), period) == g(Smoothed(before, x, period))
  {
    SmoothedStep(before, x, period, c);
  }

  lemma {:induction false} WilderScales(ms: seq<real>, period: int, i: nat, g: real -> real, c: real)
    requires 1 <= period <= i + 1 <= |ms| && Requotes(g, c, 0.0)
    ensures Wilder(Mapped(ms, g), period, i) == g(Wilder(ms, period, i))
  {
    if i == period - 1 {
      assert Mapped(ms, g)[..period] == Mapped(ms[..period], g);
      MeanMapped(ms[..period], g, c, 0.0);
    } else {
      WilderScales(ms, period, i - 1, g, c);
      SmoothedScales(Wilder(ms, period, i - 1), ms[i], period, g, c);
    }
  }

  lemma RiseScales(from: real, to: real, from2: real, to2: real, c: real)
    requires c > 0.0 && to2 - from2 == c * (to - from)
    ensures Rise(from2, to2) == c * Rise(from, to)
  {
    SignOfFactor(to - from, c);
    SignOfFactor(from - to, c);
  }

  lemma RiseMoves(from: real, to: real, f: real -> real, c: real, d: real, g: real -> real)
    requires Requotes(f, c, d) && c > 0.0 && Requotes(g, c, 0.0)
    ensures Rise(f(from), f(to)) == g(Rise(from, to))
  {
    Distribute(c, to, -from);
    RiseScales(from, to, f(from), f(to), c);
  }

  /** Every rise moves as `g` does. */
  ghost predicate MovesRises(f: real -> real, g: real -> real) {
    forall from, to :: Rise(f(from), f(to)) == g(Rise(from, to))
  }

  lemma RisesMove(f: real -> real, c: real, d: real, g: real -> real)
    requires Requotes(f, c, d) && c > 0.0 && Requotes(g, c, 0.0)
    ensures MovesRises(f, g)
  {
    forall from, to
      ensures Rise(f(from), f(to)) == g(Rise(from, to))
    {
      RiseMoves(from, to, f, c, d, g);
    }
  }

  lemma MovesScale(xs: seq<real>, f: real -> real, g: real -> real)
    requires xs != [] && MovesRises(f, g)
    ensures Gains(Mapped(xs, f)) == Mapped(Gains(xs), g)
    ensures Losses(Mapped(xs, f)) == Mapped(Losses(xs), g)
  {
    hide Rise;
  }

  lemma SameShare(down: real, scaled: real, gain: real, loss: real, moreGain: real, moreLoss: real, c: real)
    requires c > 0.0 && gain + loss > 0.0 && moreGain == c * gain && moreLoss == c * loss
    requires down * (gain + loss) == 100.0 * loss && scaled * (moreGain + moreLoss) == 100.0 * moreLoss
    ensures scaled == down
  {
    var total := gain + loss;
    Distribute(c, gain, loss);
    Regroup(scaled, moreGain + moreLoss, c, total);
    assert c * (scaled * total) == c * (100.0 * loss);
    CancelFactor(c, scaled * total, 100.0 * loss);
    CancelFactor(total, scaled, down);
  }

  lemma RsiFromScales(gain: real, loss: real, moreGain: real, moreLoss: real, c: real)
    requires gain >= 0.0 && loss >= 0.0 && c > 0.0 && moreGain == c * gain && moreLoss == c * loss
    ensures moreGain >= 0.0 && moreLoss >= 0.0
    ensures RsiFrom(moreGain, moreLoss) == RsiFrom(gain, loss)
  {
    ProductNonNegative(c, gain);
    ProductNonNegative(c, loss);
    if loss > 0.0 {
      ProductPositive(c, loss);
      RsiIsTheShare(gain, loss);
      RsiIsTheShare(moreGain, moreLoss);
      SameShare(100.0 - RsiFrom(gain, loss), 100.0 - RsiFrom(moreGain, moreLoss), gain, loss, moreGain, moreLoss, c);
    }
  }

  lemma AveragesScale(xs: seq<real>, period: int, i: nat, f: real -> real, c: real, d: real, g: real -> real)
    requires 1 <= period <= i < |xs| && Requotes(f, c, d) && c > 0.0 && Requotes(g, c, 0.0)
    ensures Wilder(Gains(Mapped(xs, f)), period, i - 1) == g(Wilder(Gains(xs), period, i - 1))
    ensures Wilder(Losses(Mapped(xs, f)), period, i - 1) == g(Wilder(Losses(xs), period, i - 1))
  {
    hide Requotes, MovesRises, Wilder, Gains, Losses, Mapped;
    RisesMove(f, c, d, g);
    MovesScale(xs, f, g);
    WilderScales(Gains(xs), period, i - 1, g, c);
    WilderScales(Losses(xs), period, i - 1, g, c);
  }

  lemma ScaledReading(gain: real, loss: real, g: real -> real, c: real)
    requires gain >= 0.0 && loss >= 0.0 && c > 0.0 && Requotes(g, c, 0.0)
    ensures g(gain) >= 0.0 && g(loss) >= 0.0 && RsiFrom(g(gain), g(loss)) == RsiFrom(gain, loss)
  {
    RsiFromScales(gain, loss, g(gain), g(loss), c);
  }

  lemma RsiThrough(xs: seq<real>, ys: seq<real>, period: int, i: nat, gain: real, loss: real, moreGain: real, moreLoss: real)
    requires 1 <= period <= i < |xs| && i < |ys|
    requires gain == Wilder(Gains(xs), period, i - 1) && loss == Wilder(Losses(xs), period, i - 1)
    requires moreGain == Wilder(Gains(ys), period, i - 1) && moreLoss == Wilder(Losses(ys), period, i - 1)
    requires gain >= 0.0 && loss >= 0.0 && moreGain >= 0.0 && moreLoss >= 0.0
    requires RsiFrom(moreGain, moreLoss) == RsiFrom(gain, loss)
    ensures RsiAt(ys, period, i) == RsiAt(xs, period, i)
  {
  }

  lemma RsiScales(xs: seq<real>, period: int, i: nat, f: real -> real, c: real, d: real, g: real -> real)
    requires 1 <= period <= i < |xs| && Requotes(f, c, d) && c > 0.0 && Requotes(g, c, 0.0)
    ensures RsiAt(Mapped(xs, f), period, i) == RsiAt(xs, period, i)
  {
    hide Requotes, Mapped, Wilder, RsiAt, RsiFrom;
    AveragesScale(xs, period, i, f, c, d, g);
    WilderWithin(Gains(xs), period, i - 1);
    WilderWithin(Losses(xs), period, i - 1);
    var gain, loss := Wilder(Gains(xs), period, i - 1), Wilder(Losses(xs), period, i - 1);
    ScaledReading(gain, loss, g, c);
    RsiThrough(xs, Mapped(xs, f), period, i, gain, loss, g(gain), g(loss));
  }

  /** Requoted prices have the same strength. */
  lemma RsiIsUnitFree(xs: seq<real>, period: int, i: nat, f: real -> real, c: real, d: real)
    requires 1 <= period <= i < |xs| && Requotes(f, c, d) && c > 0.0
    ensures RsiAt(Mapped(xs, f), period, i) == RsiAt(xs, period, i)
  {
    ScaleRequotes(c);
    RsiScales(xs, period, i, f, c, d, Scale(c));
  }

  lemma MirroredShares(a: real, b: real, gain: real, loss: real)
    requires gain + loss > 0.0
    requires (100.0 - a) * (gain + loss) == 100.0 * loss && (100.0 - b) * (gain + loss) == 100.0 * gain
    ensures a + b == 100.0
  {
    var t := gain + loss;
    assert t * (200.0 - a - b) == (100.0 - a) * t + (100.0 - b) * t;
    CancelFactor(t, 200.0 - a - b, 100.0);
  }

  lemma ReadingsMirrorIff(gain: real, loss: real)
    requires gain >= 0.0 && loss >= 0.0
    ensures RsiFrom(gain, loss) + RsiFrom(loss, gain) == 100.0 <==> gain > 0.0 || loss > 0.0
    ensures !(gain > 0.0 || loss > 0.0) ==> RsiFrom(gain, loss) == 100.0 == RsiFrom(loss, gain)
  {
    if gain + loss > 0.0 {
      RsiIsTheShare(gain, loss);
      RsiIsTheShare(loss, gain);
      MirroredShares(RsiFrom(gain, loss), RsiFrom(loss, gain), gain, loss);
    }
  }

  // Which averages are above nought.

  ghost predicate NonNegative(ms: seq<real>) {
    forall j :: 0 <= j < |ms| ==> ms[j] >= 0.0
  }

  ghost predicate AnyPositive(ms: seq<real>, n: nat)
    requires n <= |ms|
  {
    exists j :: 0 <= j < n && ms[j] > 0.0
  }

  lemma {:induction false} SumPositiveIff(ms: seq<real>)
    requires NonNegative(ms)
    ensures Sum(ms) > 0.0 <==> AnyPositive(ms, |ms|)
  {
    if ms != [] {
      var front := ms[..|ms| - 1];
      SumPositiveIff(front);
      SumNonNegative(front);
      assert forall j :: 0 <= j < |front| ==> front[j] == ms[j];
    }
  }

  lemma QuotientPositiveIff(s: real, n: real)
    requires n > 0.0 && s >= 0.0
    ensures s / n > 0.0 <==> s > 0.0
  {
    QuotientTimes(s, n);
    QuotientNonNegative(s, n);
  }

  lemma SmoothedPositiveIff(before: real, x: real, period: int)
    requires 2 <= period && before >= 0.0 && x >= 0.0
    ensures Smoothed(before, x, period) > 0.0 <==> before > 0.0 || x > 0.0
  {
    var kept := before * (period - 1) as real;
    ProductNonNegative(before, (period - 1) as real);
    if before > 0.0 {
      ProductPositive(before, (period - 1) as real);
    }
    QuotientPositiveIff(kept + x, period as real);
  }

  lemma MeanPositiveIff(ms: seq<real>, period: int)
    requires 1 <= period <= |ms| && NonNegative(ms)
    ensures Mean(ms[..period]) > 0.0 <==> AnyPositive(ms, period)
  {
    var first := ms[..period];
    SumPositiveIff(first);
    SumNonNegative(first);
    QuotientPositiveIff(Sum(first), period as real);
    assert forall j :: 0 <= j < period ==> first[j] == ms[j];
  }

  /** From two bars on an average never forgets: it stays above nought once it was. */
  lemma {:induction false} WilderPositiveIff(ms: seq<real>, period: int, i: nat)
    requires 2 <= period <= i + 1 <= |ms| && NonNegative(ms)
    ensures Wilder(ms, period, i) > 0.0 <==> AnyPositive(ms, i + 1)
  {
    if i == period - 1 {
      MeanPositiveIff(ms, period);
    } else {
      WilderPositiveIff(ms, period, i - 1);
      WilderWithin(ms, period, i - 1);
      SmoothedPositiveIff(Wilder(ms, period, i - 1), ms[i], period);
    }
  }

  /** And over one bar it is that bar's. */
  lemma WilderOfOne(ms: seq<real>, i: nat)
    requires i < |ms|
    ensures Wilder(ms, 1, i) == ms[i]
  {
    if i == 0 {
      assert ms[..1] == [] + [ms[0]];
      SumSnoc([], ms[0]);
    }
  }

  // A series turned upside down.

  function Mirrored(xs: seq<real>): (ys: seq<real>)
    ensures |ys| == |xs|
  {
    Mapped(xs, x => -x)
  }

  lemma MirrorSwaps(xs: seq<real>)
    requires xs != []
    ensures Gains(Mirrored(xs)) == Losses(xs) && Losses(Mirrored(xs)) == Gains(xs)
  {
  }

  /** Something the reading still remembers moved: any change up to the bar, or over a
      period of one the last. */
  ghost predicate Moved(xs: seq<real>, period: int, i: nat)
    requires 1 <= period <= i < |xs|
  {
    if period == 1 then Changed(xs, i - 1) else exists j :: 0 <= j < i && Changed(xs, j)
  }

  predicate Changed(xs: seq<real>, j: nat)
    requires j + 1 < |xs|
  {
    xs[j] != xs[j + 1]
  }

  lemma ChangedIff(xs: seq<real>, j: nat)
    requires j + 1 < |xs|
    ensures Changed(xs, j) <==> Gains(xs)[j] > 0.0 || Losses(xs)[j] > 0.0
  {
  }

  lemma MovedIff(xs: seq<real>, period: int, i: nat)
    requires 2 <= period <= i < |xs|
    ensures Moved(xs, period, i) <==> AnyPositive(Gains(xs), i) || AnyPositive(Losses(xs), i)
  {
    forall j | 0 <= j < i
      ensures Changed(xs, j) <==> Gains(xs)[j] > 0.0 || Losses(xs)[j] > 0.0
    {
      ChangedIff(xs, j);
    }
  }

  lemma LastMovedIff(xs: seq<real>, i: nat)
    requires 1 <= i < |xs|
    ensures Moved(xs, 1, i) <==> Wilder(Gains(xs), 1, i - 1) > 0.0 || Wilder(Losses(xs), 1, i - 1) > 0.0
  {
    WilderOfOne(Gains(xs), i - 1);
    WilderOfOne(Losses(xs), i - 1);
    ChangedIff(xs, i - 1);
  }

  lemma AveragesMovedIff(xs: seq<real>, period: int, i: nat)
    requires 1 <= period <= i < |xs|
    ensures Moved(xs, period, i) <==> Wilder(Gains(xs), period, i - 1) > 0.0 || Wilder(Losses(xs), period, i - 1) > 0.0
  {
    if period == 1 {
      LastMovedIff(xs, i);
    } else {
      MovedIff(xs, period, i);
      WilderPositiveIff(Gains(xs), period, i - 1);
      WilderPositiveIff(Losses(xs), period, i - 1);
    }
  }

  /** Turned upside down, a series reads the complement if and only if something the
      reading still remembers moved. Where nothing did, it reads a hundred either way up. */
  lemma RsiMirrorsIff(xs: seq<real>, period: int, i: nat)
    requires 1 <= period <= i < |xs|
    ensures RsiAt(xs, period, i) + RsiAt(Mirrored(xs), period, i) == 100.0 <==> Moved(xs, period, i)
    ensures !Moved(xs, period, i) ==> RsiAt(xs, period, i) == 100.0 == RsiAt(Mirrored(xs), period, i)
  {
    WilderWithin(Gains(xs), period, i - 1);
    WilderWithin(Losses(xs), period, i - 1);
    hide RsiFrom, RsiAt, Wilder, Gains, Losses, Moved, Mirrored;
    var gain, loss := Wilder(Gains(xs), period, i - 1), Wilder(Losses(xs), period, i - 1);
    MirrorSwaps(xs);
    ReadingIs(xs, period, i, gain, loss);
    ReadingIs(Mirrored(xs), period, i, loss, gain);
    AveragesMovedIff(xs, period, i);
    ReadingsMirrorIff(gain, loss);
  }

  /** A rise is forgotten a bar later over a period of one, but never over two. */
  lemma FlatAfterARise()
    ensures RsiAt([1.0, 2.0, 2.0], 1, 2) == 100.0 == RsiAt(Mirrored([1.0, 2.0, 2.0]), 1, 2)
    ensures RsiAt([1.0, 2.0, 2.0], 2, 2) + RsiAt(Mirrored([1.0, 2.0, 2.0]), 2, 2) == 100.0
  {
    var xs := [1.0, 2.0, 2.0];
    RsiMirrorsIff(xs, 1, 2);
    assert Changed(xs, 0);
    RsiMirrorsIff(xs, 2, 2);
  }
}
