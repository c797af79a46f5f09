/** Moving average convergence and divergence, in exact real arithmetic. */
module Macd {
  import opened Reals
  import opened Indicators

  datatype Lines = Lines(macd: seq<Point>, signal: seq<Point>, histogram: seq<Point>)

  /** The values by time; of two at one time the later. */
  function ByTime(points: seq<Point>): map<int, real> {
    if points == [] then map[] else ByTime(points[..|points| - 1])[points[|points| - 1].time := points[|points| - 1].value]
  }

  function GapAt(p: Point, table: map<int, real>): seq<Point> {
    if p.time in table then [Point(p.time, p.value - table[p.time])] else []
  }

  /** The gap at each point that has a counterpart, in order. */
  function Gaps(points: seq<Point>, table: map<int, real>): seq<Point> {
    if points == [] then [] else Gaps(points[..|points| - 1], table) + GapAt(points[|points| - 1], table)
  }

  function LineOf(points: seq<Point>, fast: int, slow: int): seq<Point> {
    Gaps(EmaOf(points, fast), ByTime(EmaOf(points, slow)))
  }

  function HistogramOf(line: seq<Point>, signalPeriod: int): seq<Point> {
    Gaps(line, ByTime(EmaOf(line, signalPeriod)))
  }

  function LinesOf(points: seq<Point>, fast: int, slow: int, signalPeriod: int): Lines {
    var line := LineOf(points, fast, slow);
    Lines(line, EmaOf(line, signalPeriod), HistogramOf(line, signalPeriod))
  }

  /** Each point less the one at its time among `others`, where there is one. */
  method Subtract(points: seq<Point>, others: seq<Point>) returns (gaps: seq<Point>)
    ensures gaps == Gaps(points, ByTime(others))
  {
    var table: map<int, real> := map[];
    for i := 0 to |others|
      invariant table == ByTime(others[..i])
    {
      assert others[..i + 1][..i] == others[..i];
      table := table[others[i].time := others[i].value];
    }
    assert others[..|others|] == others;
    gaps := [];
    for i := 0 to |points|
      invariant gaps == Gaps(points[..i], table)
    {
      assert points[..i + 1][..i] == points[..i];
      if points[i].time in table {
        gaps := gaps + [Point(points[i].time, points[i].value - table[points[i].time])];
      }
    }
    assert points[..|points|] == points;
  }

  method Compute(bars: seq<Bar>, fast: int, slow: int, signalPeriod: int) returns (lines: Lines)
    ensures lines == LinesOf(ClosePoints(bars), fast, slow, signalPeriod)
  {
    var fastEma := Ema(bars, fast);
    var slowEma := Ema(bars, slow);
    var line := Subtract(fastEma, slowEma);
    var signal := EmaOfPoints(line, signalPeriod);
    var histogram := Subtract(line, signal);
    lines := Lines(line, signal, histogram);
  }

  // ----- The gap, point by point -----

  function TimesOf(points: seq<Point>): (ts: seq<int>)
    ensures |ts| == |points|
  {
    seq(|points|, i requires 0 <= i < |points| => points[i].time)
  }

  ghost predicate Distinct(ts: seq<int>) {
    forall i, j :: 0 <= i < j < |ts| ==> ts[i] != ts[j]
  }

  /** One point less another at its place. */
  function Difference(a: seq<Point>, b: seq<Point>): seq<Point>
    requires |a| == |b|
  {
    seq(|a|, k requires 0 <= k < |a| => Point(a[k].time, a[k].value - b[k].value))
  }

  function Last(points: seq<Point>, n: nat): (last: seq<Point>)
    requires n <= |points|
    ensures |last| == n
  {
    points[|points| - n..]
  }

  lemma {:induction false} ByTimeHolds(points: seq<Point>)
    requires Distinct(TimesOf(points))
    ensures forall k :: 0 <= k < |points| ==> points[k].time in ByTime(points) && ByTime(points)[points[k].time] == points[k].value
    ensures forall t :: t in ByTime(points) ==> t in TimesOf(points)
  {
    if points != [] {
      var front, last := points[..|points| - 1], points[|points| - 1];
      assert TimesOf(points) == TimesOf(front) + [last.time];
      assert forall i :: 0 <= i < |front| ==> TimesOf(front)[i] == TimesOf(points)[i];
      ByTimeHolds(front);
      assert forall i :: 0 <= i < |front| ==> front[i].time == TimesOf(points)[i] && last.time == TimesOf(points)[|front|];
    }
  }

  lemma {:induction false} GapsConcat(a: seq<Point>, b: seq<Point>, table: map<int, real>)
    ensures Gaps(a + b, table) == Gaps(a, table) + Gaps(b, table)
  {
    if b == [] {
      assert a + b == a;
    } else {
      GapsConcat(a, b[..|b| - 1], table);
      assert (a + b)[..|a + b| - 1] == a + b[..|b| - 1];
      assert (a + b)[|a + b| - 1] == b[|b| - 1];
    }
  }

  lemma {:induction false} NoGaps(points: seq<Point>, table: map<int, real>)
    requires forall k :: 0 <= k < |points| ==> points[k].time !in table
    ensures Gaps(points, table) == []
  {
    if points != [] {
      NoGaps(points[..|points| - 1], table);
    }
  }

  lemma {:induction false} EveryGap(points: seq<Point>, others: seq<Point>, table: map<int, real>)
    requires |others| == |points|
    requires forall k :: 0 <= k < |points| ==> points[k].time in table && table[points[k].time] == others[k].value
    ensures Gaps(points, table) == Difference(points, others)
  {
    if points != [] {
      var n := |points| - 1;
      EveryGap(points[..n], others[..n], table);
      assert Difference(points, others) == Difference(points[..n], others[..n]) + GapAt(points[n], table);
    }
  }

  /** The last `n` of each are at the same times, and that is all of one of them. */
  ghost predicate Aligned(a: seq<Point>, b: seq<Point>, n: nat) {
    && n <= |a| && n <= |b| && (n == |a| || n == |b|)
    && TimesOf(Last(a, n)) == TimesOf(Last(b, n))
  }

  lemma EarlierIsElsewhere(a: seq<Point>, b: seq<Point>, n: nat, i: nat)
    requires Distinct(TimesOf(a)) && Distinct(TimesOf(b)) && Aligned(a, b, n) && i < |a| - n
    ensures a[i].time !in ByTime(b)
  {
    ByTimeHolds(b);
    assert Last(b, n) == b;
    assert TimesOf(b) == TimesOf(a)[|a| - n..];
    forall k | 0 <= k < |b|
      ensures TimesOf(b)[k] != a[i].time
    {
      assert TimesOf(b)[k] == TimesOf(a)[|a| - n + k] && a[i].time == TimesOf(a)[i];
    }
  }

  lemma {:induction false} LaterIsThere(a: seq<Point>, b: seq<Point>, n: nat, k: nat)
    requires Distinct(TimesOf(b)) && Aligned(a, b, n) && k < n
    ensures Last(a, n)[k].time in ByTime(b) && ByTime(b)[Last(a, n)[k].time] == Last(b, n)[k].value
  {
    ByTimeHolds(b);
    assert TimesOf(Last(a, n))[k] == TimesOf(Last(b, n))[k];
    assert b[|b| - n + k] == Last(b, n)[k];
  }

  lemma EarlyHaveNone(a: seq<Point>, b: seq<Point>, n: nat)
    requires Distinct(TimesOf(a)) && Distinct(TimesOf(b)) && Aligned(a, b, n)
    ensures Gaps(a[..|a| - n], ByTime(b)) == []
  {
    var early := a[..|a| - n];
    forall i | 0 <= i < |early|
      ensures early[i].time !in ByTime(b)
    {
      EarlierIsElsewhere(a, b, n, i);
    }
    NoGaps(early, ByTime(b));
  }

  lemma {:induction false} LateHaveEach(a: seq<Point>, b: seq<Point>, n: nat)
    requires Distinct(TimesOf(b)) && Aligned(a, b, n)
    ensures Gaps(Last(a, n), ByTime(b)) == Difference(Last(a, n), Last(b, n))
  {
    var late, others, table := Last(a, n), Last(b, n), ByTime(b);
    forall k | 0 <= k < n
      ensures late[k].time in table && table[late[k].time] == others[k].value
    {
      LaterIsThere(a, b, n, k);
    }
    EveryGap(late, others, table);
  }

  lemma SplitGaps(a: seq<Point>, m: nat, table: map<int, real>)
    requires m <= |a|
    ensures Gaps(a[..m], table) == [] ==> Gaps(a, table) == Gaps(Last(a, |a| - m), table)
  {
    GapsConcat(a[..m], a[m..], table);
    assert a == a[..m] + a[m..];
  }

  /** Subtracting by time is subtracting from the end. */
  lemma GapsAlign(a: seq<Point>, b: seq<Point>, n: nat)
    requires Distinct(TimesOf(a)) && Distinct(TimesOf(b)) && Aligned(a, b, n)
    ensures Gaps(a, ByTime(b)) == Difference(Last(a, n), Last(b, n))
  {
    SplitGaps(a, |a| - n, ByTime(b));
    EarlyHaveNone(a, b, n);
    LateHaveEach(a, b, n);
  }

  // The averages, and the gap between them, from a bar on.

  function EmasFrom(points: seq<Point>, period: int, first: nat): (emas: seq<Point>)
    requires 1 <= period <= first + 1 <= |points|
    ensures |emas| == |points| - first
  {
    seq(|points| - first, k requires 0 <= k < |points| - first =>
          Point(points[first + k].time, EmaAt(Values(points), period, first + k)))
  }

  lemma LastEmaAt(points: seq<Point>, period: int, first: nat, k: nat)
    requires 1 <= period <= first + 1 <= |points| && k < |points| - first
    ensures |EmaOf(points, period)| == |points| - period + 1
    ensures Last(EmaOf(points, period), |points| - first)[k] == EmasFrom(points, period, first)[k]
  {
    EmaUpToAt(points, period, |points|, first + k - period + 1);
  }

  lemma LastEmas(points: seq<Point>, period: int, first: nat)
    requires 1 <= period <= first + 1 <= |points|
    ensures |EmaOf(points, period)| == |points| - period + 1
    ensures Last(EmaOf(points, period), |points| - first) == EmasFrom(points, period, first)
  {
    forall k | 0 <= k < |points| - first
      ensures Last(EmaOf(points, period), |points| - first)[k] == EmasFrom(points, period, first)[k]
    {
      LastEmaAt(points, period, first, k);
    }
  }

  lemma EmasFromTimes(points: seq<Point>, period: int, first: nat)
    requires 1 <= period <= first + 1 <= |points|
    ensures TimesOf(EmasFrom(points, period, first)) == TimesOf(points)[first..]
  {
  }

  lemma EmaTimes(points: seq<Point>, period: int)
    requires 1 <= period <= |points|
    ensures TimesOf(EmaOf(points, period)) == TimesOf(points)[period - 1..]
  {
    LastEmas(points, period, period - 1);
    EmasFromTimes(points, period, period - 1);
    assert Last(EmaOf(points, period), |points| - period + 1) == EmaOf(points, period);
  }

  lemma EmaTimesDistinct(points: seq<Point>, period: int)
    requires Distinct(TimesOf(points)) && 1 <= period <= |points|
    ensures Distinct(TimesOf(EmaOf(points, period)))
  {
    EmaTimes(points, period);
    DistinctLater(TimesOf(points), period - 1);
  }

  lemma EmasAlign(points: seq<Point>, fast: int, slow: int, first: nat)
    requires 1 <= fast <= |points| && 1 <= slow <= |points|
    requires first == if fast < slow then slow - 1 else fast - 1
    ensures Aligned(EmaOf(points, fast), EmaOf(points, slow), |points| - first)
  {
    LastEmas(points, fast, first);
    LastEmas(points, slow, first);
    EmasFromTimes(points, fast, first);
    EmasFromTimes(points, slow, first);
  }

  lemma DistinctLater(ts: seq<int>, n: nat)
    requires Distinct(ts) && n <= |ts|
    ensures Distinct(ts[n..])
  {
    var later := ts[n..];
    forall i, j | 0 <= i < j < |later|
      ensures later[i] != later[j]
    {
      assert later[i] == ts[n + i] && later[j] == ts[n + j];
    }
  }

  /** The line is the gap between the two averages at every bar that has both. */
  lemma LineIsTheGap(points: seq<Point>, fast: int, slow: int, first: nat)
    requires Distinct(TimesOf(points)) && 1 <= fast <= |points| && 1 <= slow <= |points|
    requires first == if fast < slow then slow - 1 else fast - 1
    ensures LineOf(points, fast, slow) == Difference(EmasFrom(points, fast, first), EmasFrom(points, slow, first))
  {
    hide Distinct, TimesOf, EmaOf;
    EmasAlign(points, fast, slow, first);
    EmaTimesDistinct(points, fast);
    EmaTimesDistinct(points, slow);
    LastEmas(points, fast, first);
    LastEmas(points, slow, first);
    GapsAlign(EmaOf(points, fast), EmaOf(points, slow), |points| - first);
  }

  /** Where either average has no value there is no line. */
  lemma NoLine(points: seq<Point>, fast: int, slow: int)
    requires !(1 <= fast <= |points| && 1 <= slow <= |points|)
    ensures LineOf(points, fast, slow) == []
  {
    if 1 <= fast <= |points| {
      NoGaps(EmaOf(points, fast), map[]);
    }
  }

  lemma DifferenceTimes(a: seq<Point>, b: seq<Point>)
    requires |a| == |b|
    ensures TimesOf(Difference(a, b)) == TimesOf(a)
  {
  }

  lemma GapTimesDistinct(points: seq<Point>, fast: int, slow: int, first: nat)
    requires Distinct(TimesOf(points)) && 1 <= fast <= |points| && 1 <= slow <= |points|
    requires first == if fast < slow then slow - 1 else fast - 1
    ensures Distinct(TimesOf(LineOf(points, fast, slow)))
  {
    hide *;
    LineIsTheGap(points, fast, slow, first);
    EmasFromTimes(points, fast, first);
    EmasFromTimes(points, slow, first);
    DifferenceTimes(EmasFrom(points, fast, first), EmasFrom(points, slow, first));
    DistinctLater(TimesOf(points), first);
  }

  lemma LineTimesDistinct(points: seq<Point>, fast: int, slow: int)
    requires Distinct(TimesOf(points))
    ensures Distinct(TimesOf(LineOf(points, fast, slow)))
  {
    if 1 <= fast <= |points| && 1 <= slow <= |points| {
      GapTimesDistinct(points, fast, slow, if fast < slow then slow - 1 else fast - 1);
    } else {
      NoLine(points, fast, slow);
    }
  }

  /** The histogram is the line less its signal at each of the signal's times, and
      nowhere else. */
  lemma HistogramIsTheGap(line: seq<Point>, signalPeriod: int)
    requires Distinct(TimesOf(line))
    ensures var signal := EmaOf(line, signalPeriod);
      && |signal| <= |line|
      && HistogramOf(line, signalPeriod) == Difference(Last(line, |signal|), signal)
      && TimesOf(Last(line, |signal|)) == TimesOf(signal)
  {
    var signal := EmaOf(line, signalPeriod);
    if 1 <= signalPeriod <= |line| {
      EmaTimes(line, signalPeriod);
      DistinctLater(TimesOf(line), signalPeriod - 1);
      assert TimesOf(Last(line, |signal|)) == TimesOf(line)[signalPeriod - 1..];
      assert Last(signal, |signal|) == signal;
      GapsAlign(line, signal, |signal|);
    } else {
      NoGaps(line, map[]);
    }
  }

  /** Over candles at distinct times, then, each bar of the histogram is its line's value
      less its signal's. */
  lemma HistogramOfCandles(points: seq<Point>, fast: int, slow: int, signalPeriod: int)
    requires Distinct(TimesOf(points))
    ensures var lines := LinesOf(points, fast, slow, signalPeriod);
      && |lines.signal| <= |lines.macd|
      && lines.histogram == Difference(Last(lines.macd, |lines.signal|), lines.signal)
  {
    LineTimesDistinct(points, fast, slow);
    HistogramIsTheGap(LineOf(points, fast, slow), signalPeriod);
  }

  // ----- Requoting -----

  lemma {:induction false} ByTimeMoves(points: seq<Point>, f: real -> real)
    ensures ByTime(Move(points, f)).Keys == ByTime(points).Keys
    ensures forall t :: t in ByTime(points) ==> ByTime(Move(points, f))[t] == f(ByTime(points)[t])
  {
    if points != [] {
      var front := points[..|points| - 1];
      ByTimeMoves(front, f);
      assert Move(points, f)[..|points| - 1] == Move(front, f);
    }
  }

  lemma GapStep(x: real, y: real, c: real, d: real)
    ensures (c * x + d) - (c * y + d) == c * (x - y)
  {
  }

  lemma {:induction false} GapsMove(points: seq<Point>, table: map<int, real>, moved: map<int, real>, f: real -> real, g: real -> real, c: real, d: real)
    requires Requotes(f, c, d) && Requotes(g, c, 0.0)
    requires moved.Keys == table.Keys && forall t :: t in table ==> moved[t] == f(table[t])
    ensures Gaps(Move(points, f), moved) == Move(Gaps(points, table), g)
  {
    if points != [] {
      var front, p := points[..|points| - 1], points[|points| - 1];
      GapsMove(front, table, moved, f, g, c, d);
      assert Move(points, f)[..|points| - 1] == Move(front, f);
      assert Move(points, f)[|points| - 1] == Point(p.time, f(p.value));
      if p.time in table {
        GapStep(p.value, table[p.time], c, d);
        assert GapAt(Point(p.time, f(p.value)), moved) == [Point(p.time, g(p.value - table[p.time]))];
        MoveSnoc(Gaps(front, table), Point(p.time, p.value - table[p.time]), g);
      }
    }
  }

  lemma SubtractMoves(a: seq<Point>, b: seq<Point>, f: real -> real, g: real -> real, c: real, d: real)
    requires Requotes(f, c, d) && Requotes(g, c, 0.0)
    ensures Gaps(Move(a, f), ByTime(Move(b, f))) == Move(Gaps(a, ByTime(b)), g)
  {
    ByTimeMoves(b, f);
    GapsMove(a, ByTime(b), ByTime(Move(b, f)), f, g, c, d);
  }

  lemma EmaOfMoves(points: seq<Point>, period: int, f: real -> real, c: real, d: real)
    requires Requotes(f, c, d)
    ensures EmaOf(Move(points, f), period) == Move(EmaOf(points, period), f)
  {
    if period >= 1 {
      EmaMoves(points, period, |points|, f, c, d);
    }
  }

  /** Requoted prices give the same three lines in the new unit; where its zero is does
      not matter. */
  lemma LinesMove(points: seq<Point>, fast: int, slow: int, signalPeriod: int, f: real -> real, g: real -> real, c: real, d: real)
    requires Requotes(f, c, d) && Requotes(g, c, 0.0)
    ensures var was, now := LinesOf(points, fast, slow, signalPeriod), LinesOf(Move(points, f), fast, slow, signalPeriod);
      now == Lines(Move(was.macd, g), Move(was.signal, g), Move(was.histogram, g))
  {
    var line := LineOf(points, fast, slow);
    EmaOfMoves(points, fast, f, c, d);
    EmaOfMoves(points, slow, f, c, d);
    SubtractMoves(EmaOf(points, fast), EmaOf(points, slow), f, g, c, d);
    EmaOfMoves(line, signalPeriod, g, c, 0.0);
    SubtractMoves(line, EmaOf(line, signalPeriod), g, g, c, 0.0);
  }
}
