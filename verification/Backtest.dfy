/** How finely a replayed rule was checked: the gaps between recorded swaps. */
module Backtest {
  import opened Wrappers

  type Seconds = int

  ghost predicate InOrder(ts: seq<Seconds>) {
    forall i, j :: 0 <= i < j < |ts| ==> ts[i] <= ts[j]
  }

  /** Each point less the one before it. */
  function Gaps(ts: seq<Seconds>): (gaps: seq<Seconds>)
    ensures |gaps| == if ts == [] then 0 else |ts| - 1
  {
    if |ts| < 2 then [] else Gaps(ts[..|ts| - 1]) + [ts[|ts| - 1] - ts[|ts| - 2]]
  }

  function Worst(gaps: seq<Seconds>): Seconds
    requires gaps != []
  {
    if |gaps| == 1 then gaps[0]
    else
      var before, last := Worst(gaps[..|gaps| - 1]), gaps[|gaps| - 1];
      if last > before then last else before
  }

  function Insert(x: Seconds, sorted: seq<Seconds>): (longer: seq<Seconds>)
    ensures |longer| == |sorted| + 1
  {
    if sorted == [] || x < sorted[0] then [x] + sorted else [sorted[0]] + Insert(x, sorted[1..])
  }

  /** The standard library's numeric sort, as an insertion sort. */
  function Sorted(gaps: seq<Seconds>): (sorted: seq<Seconds>)
    ensures |sorted| == |gaps|
  {
    if gaps == [] then [] else Insert(gaps[|gaps| - 1], Sorted(gaps[..|gaps| - 1]))
  }

  /** The middle of sorted gaps, or of the two middle ones halves rounded up. */
  function Middle(sorted: seq<Seconds>): Seconds
    requires sorted != []
  {
    var middle := |sorted| / 2;
    if |sorted| % 2 == 0 then (sorted[middle - 1] + sorted[middle] + 1) / 2 else sorted[middle]
  }

  datatype Spread = Spread(median: Seconds, worst: Seconds)

  method Spacing(ts: seq<Seconds>) returns (spread: Spread)
    ensures |ts| < 2 ==> spread == Spread(0, 0)
    ensures |ts| >= 2 ==> spread == Spread(Middle(Sorted(Gaps(ts))), Worst(Gaps(ts)))
  {
    if |ts| < 2 { return Spread(0, 0); }
    var gaps: seq<Seconds> := [ts[1] - ts[0]];
    assert ts[..2][..1] == ts[..1];
    for index := 2 to |ts|
      invariant gaps == Gaps(ts[..index])
    {
      assert ts[..index + 1][..index] == ts[..index];
      gaps := gaps + [ts[index] - ts[index - 1]];
    }
    assert ts[..|ts|] == ts;
    var worst := gaps[0];
    for i := 1 to |gaps|
      invariant worst == Worst(gaps[..i])
    {
      assert gaps[..i + 1][..i] == gaps[..i];
      if gaps[i] > worst { worst := gaps[i]; }
    }
    assert gaps[..|gaps|] == gaps;
    return Spread(Middle(Sorted(gaps)), worst);
  }

  /** The point the scan stops behind: the last before one that is not before the exit. */
  function Scan(ts: seq<Seconds>, exitAt: Seconds, previous: Option<Seconds>): Option<Seconds> {
    if ts == [] || ts[0] >= exitAt then previous else Scan(ts[1..], exitAt, Some(ts[0]))
  }

  method ExitGap(ts: seq<Seconds>, exitAt: Seconds) returns (gap: Option<Seconds>)
    ensures gap == match Scan(ts, exitAt, None) { case None => None case Some(previous) => Some(exitAt - previous) }
  {
    var previous: Option<Seconds> := None;
    for i := 0 to |ts|
      invariant Scan(ts, exitAt, None) == Scan(ts[i..], exitAt, previous)
    {
      assert ts[i..][1..] == ts[i + 1..];
      if ts[i] >= exitAt { break; }
      previous := Some(ts[i]);
    }
    gap := if previous.None? then None else Some(exitAt - previous.value);
  }

  /** The points a position was open across. */
  function Checked(ts: seq<Seconds>, openedAt: Seconds, closedAt: Seconds): seq<Seconds> {
    if ts == [] then []
    else Checked(ts[..|ts| - 1], openedAt, closedAt) + if openedAt <= ts[|ts| - 1] <= closedAt then [ts[|ts| - 1]] else []
  }

  // ----- Gaps -----

  function Sum(xs: seq<Seconds>): Seconds {
    if xs == [] then 0 else Sum(xs[..|xs| - 1]) + xs[|xs| - 1]
  }

  lemma SumSnoc(xs: seq<Seconds>, x: Seconds)
    ensures Sum(xs + [x]) == Sum(xs) + x
  {
    assert (xs + [x])[..|xs|] == xs;
  }

  /** The gaps fill the record, none counted twice. */
  lemma {:induction false} GapsSpan(ts: seq<Seconds>)
    requires |ts| >= 1
    ensures Sum(Gaps(ts)) == ts[|ts| - 1] - ts[0]
  {
    if |ts| > 1 {
      var front := ts[..|ts| - 1];
      GapsSpan(front);
      SumSnoc(Gaps(front), ts[|ts| - 1] - ts[|ts| - 2]);
    }
  }

  lemma {:induction false} GapAt(ts: seq<Seconds>, i: nat)
    requires i + 1 < |ts|
    ensures Gaps(ts)[i] == ts[i + 1] - ts[i]
  {
    if i + 2 < |ts| {
      GapAt(ts[..|ts| - 1], i);
    }
  }

  lemma {:induction false} WorstIsWorst(gaps: seq<Seconds>, i: nat)
    requires i < |gaps|
    ensures gaps[i] <= Worst(gaps) && Worst(gaps) in gaps
  {
    if |gaps| > 1 {
      WorstIsWorst(gaps[..|gaps| - 1], if i < |gaps| - 1 then i else 0);
    }
  }

  // ----- The median -----

  lemma OrderAt(ts: seq<Seconds>, i: nat, j: nat)
    requires InOrder(ts) && i <= j < |ts|
    ensures ts[i] <= ts[j]
  {
  }

  lemma OrderTail(ts: seq<Seconds>)
    requires InOrder(ts) && ts != []
    ensures InOrder(ts[1..])
    ensures forall t :: t in ts ==> ts[0] <= t
  {
    forall i, j | 0 <= i < j < |ts| - 1
      ensures ts[1..][i] <= ts[1..][j]
    {
      OrderAt(ts, i + 1, j + 1);
    }
  }

  lemma OrderCons(first: Seconds, rest: seq<Seconds>)
    requires InOrder(rest) && forall t :: t in rest ==> first <= t
    ensures InOrder([first] + rest)
  {
    forall j | 0 <= j < |rest|
      ensures first <= rest[j]
    {
      assert rest[j] in rest;
    }
  }

  lemma {:induction false} InsertHolds(x: Seconds, sorted: seq<Seconds>)
    ensures multiset(Insert(x, sorted)) == multiset(sorted) + multiset{x}
    ensures forall y :: y in Insert(x, sorted) <==> y == x || y in sorted
  {
    if sorted != [] {
      assert sorted == [sorted[0]] + sorted[1..];
      InsertHolds(x, sorted[1..]);
    }
  }

  lemma {:induction false} InsertSorts(x: Seconds, sorted: seq<Seconds>)
    requires InOrder(sorted)
    ensures InOrder(Insert(x, sorted))
  {
    if sorted == [] {
    } else {
      OrderTail(sorted);
      if x < sorted[0] {
        OrderCons(x, sorted);
      } else {
        InsertSorts(x, sorted[1..]);
        InsertHolds(x, sorted[1..]);
        OrderCons(sorted[0], Insert(x, sorted[1..]));
      }
    }
  }

  lemma {:induction false} SortedSorts(gaps: seq<Seconds>)
    ensures InOrder(Sorted(gaps)) && multiset(Sorted(gaps)) == multiset(gaps)
    ensures forall y :: y in Sorted(gaps) <==> y in gaps
  {
    if gaps != [] {
      var front, last := gaps[..|gaps| - 1], gaps[|gaps| - 1];
      assert gaps == front + [last];
      SortedSorts(front);
      InsertSorts(last, Sorted(front));
      InsertHolds(last, Sorted(front));
    }
  }

  lemma MiddleIsBetween(sorted: seq<Seconds>)
    requires InOrder(sorted) && sorted != []
    ensures Middle(sorted) <= sorted[|sorted| / 2]
    ensures |sorted| >= 2 ==> sorted[|sorted| / 2 - 1] <= Middle(sorted)
  {
    if |sorted| >= 2 {
      OrderAt(sorted, |sorted| / 2 - 1, |sorted| / 2);
    }
  }

  lemma MiddleSplits(sorted: seq<Seconds>, i: nat)
    requires InOrder(sorted) && i < |sorted|
    ensures i < |sorted| / 2 ==> sorted[i] <= Middle(sorted)
    ensures i >= |sorted| / 2 ==> sorted[i] >= Middle(sorted)
  {
    MiddleIsBetween(sorted);
    if i < |sorted| / 2 {
      OrderAt(sorted, i, |sorted| / 2 - 1);
    } else {
      OrderAt(sorted, |sorted| / 2, i);
    }
  }

  /** Half the gaps are at most the median and half at least. */
  lemma MedianSplitsTheGaps(gaps: seq<Seconds>, i: nat)
    requires gaps != [] && i < |gaps|
    ensures i < |gaps| / 2 ==> Sorted(gaps)[i] <= Middle(Sorted(gaps))
    ensures i >= |gaps| / 2 ==> Sorted(gaps)[i] >= Middle(Sorted(gaps))
  {
    SortedSorts(gaps);
    MiddleSplits(Sorted(gaps), i);
  }

  /** Of an odd number of gaps it is the middle one, and of an even number halfway between
      the two, half a second up. */
  lemma MedianIs(gaps: seq<Seconds>)
    requires gaps != []
    ensures var m, sorted, median := |gaps| / 2, Sorted(gaps), Middle(Sorted(gaps));
      && (|gaps| == 2 * m + 1 ==> median == sorted[m])
      && (|gaps| == 2 * m ==> sorted[m - 1] + sorted[m] <= 2 * median <= sorted[m - 1] + sorted[m] + 1)
  {
    hide Sorted;
  }

  lemma MedianWithinWorst(gaps: seq<Seconds>)
    requires gaps != []
    ensures Middle(Sorted(gaps)) <= Worst(gaps)
  {
    SortedSorts(gaps);
    var last := Sorted(gaps)[|gaps| - 1];
    MedianSplitsTheGaps(gaps, |gaps| - 1);
    assert last in gaps;
    var i :| 0 <= i < |gaps| && gaps[i] == last;
    WorstIsWorst(gaps, i);
    if |gaps| == 1 {
      assert Middle(Sorted(gaps)) == last;
    }
  }

  // ----- What the worst gap promises -----

  lemma {:induction false} GapTo(ts: seq<Seconds>, j: nat)
    requires 0 < j < |ts|
    ensures ts[j] - ts[j - 1] <= Worst(Gaps(ts))
  {
    GapAt(ts, j - 1);
    WorstIsWorst(Gaps(ts), j - 1);
  }

  lemma NoHoleAt(ts: seq<Seconds>, l: nat, k: nat)
    requires InOrder(ts) && l < |ts| && k < |ts| && ts[l] < ts[k]
    requires forall i :: 0 <= i < |ts| ==> ts[i] <= ts[l] || ts[k] <= ts[i]
    ensures |ts| >= 2 && ts[k] - ts[l] <= Worst(Gaps(ts))
  {
    hide InOrder, Gaps, Worst;
    var j := FirstFrom(ts, ts[k], k);
    OrderOf(ts, l, j);
    GapTo(ts, j);
  }

  /** Two recorded moments with none recorded between them are no further apart than the
      worst gap. */
  lemma {:induction false} NoHoleIsWider(ts: seq<Seconds>, x: Seconds, y: Seconds)
    requires InOrder(ts) && x in ts && y in ts && x < y
    requires forall t :: t in ts ==> t <= x || y <= t
    ensures |ts| >= 2 && y - x <= Worst(Gaps(ts))
  {
    var k :| 0 <= k < |ts| && ts[k] == y;
    var l :| 0 <= l < |ts| && ts[l] == x;
    forall i | 0 <= i < |ts|
      ensures ts[i] <= x || y <= ts[i]
    {
      assert ts[i] in ts;
    }
    NoHoleAt(ts, l, k);
  }

  lemma OrderOf(ts: seq<Seconds>, l: nat, j: nat)
    requires InOrder(ts) && l < |ts| && j < |ts| && ts[l] < ts[j]
    ensures l < j
  {
  }

  /** Where a value first stands in the record. */
  lemma {:induction false} FirstFrom(ts: seq<Seconds>, y: Seconds, k: nat) returns (j: nat)
    requires InOrder(ts) && k < |ts| && ts[k] == y
    ensures j <= k && ts[j] == y && (j > 0 ==> ts[j - 1] < y)
  {
    if k == 0 || ts[k - 1] < y {
      j := k;
    } else {
      j := FirstFrom(ts, y, k - 1);
    }
  }

  /** So nobody is ever further from the last recorded moment than the worst gap. */
  lemma {:induction false} NeverFurtherThanWorst(ts: seq<Seconds>, t: Seconds) returns (i: nat)
    requires InOrder(ts) && |ts| >= 2 && ts[0] <= t <= ts[|ts| - 1]
    ensures i < |ts| && 0 <= t - ts[i] <= Worst(Gaps(ts))
  {
    i := |ts| - 1;
    while ts[i] > t
      invariant 0 <= i < |ts|
      invariant i + 1 < |ts| ==> t < ts[i + 1]
      decreases i
    {
      i := i - 1;
    }
    if i + 1 < |ts| {
      GapAt(ts, i);
      WorstIsWorst(Gaps(ts), i);
    } else {
      GapAt(ts, 0);
      WorstIsWorst(Gaps(ts), 0);
      assert ts[0] <= ts[1];
    }
  }

  // ----- The hole the rule jumped when it got out -----

  /** The scan finds nothing when every point is at the exit or after. */
  lemma ScanFindsNothing(ts: seq<Seconds>, exitAt: Seconds)
    requires forall t :: t in ts ==> t >= exitAt
    ensures Scan(ts, exitAt, None) == None
  {
    if ts != [] {
      assert ts[0] in ts;
    }
  }

  /** And otherwise the latest point strictly before it. */
  lemma {:induction false} ScanFindsTheLatest(ts: seq<Seconds>, exitAt: Seconds, previous: Option<Seconds>, t: Seconds)
    requires InOrder(ts) && t in ts && t < exitAt
    ensures var found := Scan(ts, exitAt, previous);
      found.Some? && found.value in ts && t <= found.value < exitAt
  {
    OrderTail(ts);
    var first, rest := ts[0], ts[1..];
    assert ts == [first] + rest;
    if rest != [] && rest[0] < exitAt {
      assert rest[0] in rest;
      ScanFindsTheLatest(rest, exitAt, Some(first), if t in rest then t else rest[0]);
    } else if rest != [] {
      OrderTail(rest);
    }
  }

  lemma {:induction false} CheckedIs(ts: seq<Seconds>, openedAt: Seconds, closedAt: Seconds)
    requires InOrder(ts)
    ensures forall t :: t in Checked(ts, openedAt, closedAt) <==> t in ts && openedAt <= t <= closedAt
    ensures InOrder(Checked(ts, openedAt, closedAt))
  {
    if ts != [] {
      var front, last := ts[..|ts| - 1], ts[|ts| - 1];
      assert ts == front + [last];
      CheckedIs(front, openedAt, closedAt);
      forall t | t in front
        ensures t <= last
      {
        var i :| 0 <= i < |front| && front[i] == t;
        assert ts[i] <= ts[|ts| - 1];
      }
      var before := Checked(front, openedAt, closedAt);
      assert forall i :: 0 <= i < |before| ==> before[i] in before;
    }
  }

  /** When the rule got out at a recorded moment, having been checked at an earlier one, the
      hole it jumped is from the latest moment before, and no wider than the worst gap over
      the stretch it was open. */
  lemma {:induction false} ExitGapWithinWorst(ts: seq<Seconds>, openedAt: Seconds, exitAt: Seconds)
    requires InOrder(ts) && exitAt in ts
    requires exists t :: t in Checked(ts, openedAt, exitAt) && t < exitAt
    ensures var found, checked := Scan(ts, exitAt, None), Checked(ts, openedAt, exitAt);
      && found.Some? && found.value in checked
      && |checked| >= 2 && exitAt - found.value <= Worst(Gaps(checked))
  {
    var checked := Checked(ts, openedAt, exitAt);
    CheckedIs(ts, openedAt, exitAt);
    var t :| t in checked && t < exitAt;
    ScanFindsTheLatest(ts, exitAt, None, t);
    var found := Scan(ts, exitAt, None).value;
    forall later | later in checked && later < exitAt
      ensures later <= found
    {
      ScanFindsTheLatest(ts, exitAt, None, later);
    }
    NoHoleIsWider(checked, found, exitAt);
  }
}
