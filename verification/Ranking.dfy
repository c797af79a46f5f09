/** Putting a season in order. */
module Ranking {
  import opened Fixed

  datatype Standing = Standing(trader: string, enteredAt: int, startingBalance: int, finalEquity: int)

  // ----- The return -----

  function ReturnBps(startingBalance: int, finalEquity: int): int {
    if startingBalance <= 0 then 0 else TruncatedDiv((finalEquity - startingBalance) * 10_000, startingBalance)
  }

  /** The return is the gain in ten-thousandths of the start, rounded toward nought, and
      nought where nothing was started with. */
  lemma ReturnIs(start: int, equity: int)
    ensures var r, gain := ReturnBps(start, equity), (equity - start) * 10_000;
      if start <= 0 then r == 0
      else if gain >= 0 then r >= 0 && r * start <= gain < (r + 1) * start
      else r <= 0 && (r - 1) * start < gain <= r * start
  {
  }

  /** A higher equity from the same start never reads a lower return. */
  lemma ReturnIsMonotone(start: int, lower: int, higher: int)
    requires lower <= higher
    ensures ReturnBps(start, lower) <= ReturnBps(start, higher)
  {
    if start > 0 {
      var a, b := (lower - start) * 10_000, (higher - start) * 10_000;
      if a >= 0 {
        DivMonotone(a, b, start);
      } else if b < 0 {
        DivMonotone(-b, -a, start);
      }
    }
  }

  // ----- The published rule -----

  /** The order of strings by code unit. */
  predicate Before(a: string, b: string) {
    b != [] && (a == [] || a[0] < b[0] || (a[0] == b[0] && Before(a[1..], b[1..])))
  }

  lemma {:induction false} BeforeIsTotal(a: string, b: string)
    ensures Before(a, b) || Before(b, a) || a == b
    ensures !(Before(a, b) && Before(b, a)) && !Before(a, a)
  {
    if a != [] && b != [] {
      BeforeIsTotal(a[1..], b[1..]);
      BeforeIsTotal(a[1..], a[1..]);
      assert a == [a[0]] + a[1..] && b == [b[0]] + b[1..];
    } else if a != [] {
      BeforeIsTotal(a[1..], a[1..]);
    }
  }

  lemma {:induction false} BeforeIsTransitive(a: string, b: string, c: string)
    requires Before(a, b) && Before(b, c)
    ensures Before(a, c)
  {
    if a != [] && a[0] == b[0] && b[0] == c[0] {
      BeforeIsTransitive(a[1..], b[1..], c[1..]);
    }
  }

  function ReturnOf(s: Standing): int {
    ReturnBps(s.startingBalance, s.finalEquity)
  }

  function GainOf(s: Standing): int {
    s.finalEquity - s.startingBalance
  }

  /** Negative when `left` places ahead. */
  function Compare(left: Standing, right: Standing): int {
    if ReturnOf(left) != ReturnOf(right) then ReturnOf(right) - ReturnOf(left)
    else if GainOf(left) != GainOf(right) then (if GainOf(right) > GainOf(left) then 1 else -1)
    else if left.enteredAt != right.enteredAt then left.enteredAt - right.enteredAt
    else if Before(left.trader, right.trader) then -1
    else if Before(right.trader, left.trader) then 1
    else 0
  }

  predicate Ahead(a: Standing, b: Standing) {
    Compare(a, b) < 0
  }

  /** The published rule, whatever each started with: the higher return, then the larger
      gain in lamports, then the earlier entry, then the name. */
  lemma AheadIff(a: Standing, b: Standing)
    ensures var mine, theirs := ReturnBps(a.startingBalance, a.finalEquity), ReturnBps(b.startingBalance, b.finalEquity);
      var gained, others := a.finalEquity - a.startingBalance, b.finalEquity - b.startingBalance;
      Ahead(a, b) <==>
        || mine > theirs
        || (mine == theirs && gained > others)
        || (mine == theirs && gained == others && a.enteredAt < b.enteredAt)
        || (mine == theirs && gained == others && a.enteredAt == b.enteredAt && Before(a.trader, b.trader))
  {
    BeforeIsTotal(a.trader, b.trader);
  }

  lemma AheadIsTotal(a: Standing, b: Standing)
    ensures a.trader != b.trader ==> Ahead(a, b) || Ahead(b, a)
    ensures !(Ahead(a, b) && Ahead(b, a))
    ensures Compare(a, b) == 0 ==> a.trader == b.trader
  {
    BeforeIsTotal(a.trader, b.trader);
  }

  lemma AheadIsTransitive(a: Standing, b: Standing, c: Standing)
    requires Ahead(a, b) && Ahead(b, c)
    ensures Ahead(a, c)
  {
    if Before(a.trader, b.trader) && Before(b.trader, c.trader) {
      BeforeIsTransitive(a.trader, b.trader, c.trader);
    }
    BeforeIsTotal(a.trader, b.trader);
    BeforeIsTotal(b.trader, c.trader);
  }

  /** From one starting balance the order is by equity to the lamport, then by entry, then
      by name: rounding a return to a basis point never decides a place. */
  lemma RoundingNeverDecides(a: Standing, b: Standing)
    requires a.startingBalance == b.startingBalance
    ensures Ahead(a, b) <==>
      || a.finalEquity > b.finalEquity
      || (a.finalEquity == b.finalEquity
          && (a.enteredAt < b.enteredAt || (a.enteredAt == b.enteredAt && Before(a.trader, b.trader))))
  {
    if a.finalEquity <= b.finalEquity {
      ReturnIsMonotone(a.startingBalance, a.finalEquity, b.finalEquity);
    } else {
      ReturnIsMonotone(a.startingBalance, b.finalEquity, a.finalEquity);
    }
  }

  // ----- The ranking -----

  function Insert(s: Standing, ranked: seq<Standing>): seq<Standing> {
    if ranked == [] || Compare(s, ranked[0]) < 0 then [s] + ranked else [ranked[0]] + Insert(s, ranked[1..])
  }

  /** The standard library's sort by `Compare`, as an insertion sort. */
  function Ranked(standings: seq<Standing>): seq<Standing> {
    if standings == [] then []
    else Insert(standings[|standings| - 1], Ranked(standings[..|standings| - 1]))
  }

  /** Nobody is entered twice. */
  ghost predicate OneEach(standings: seq<Standing>) {
    forall i, j :: 0 <= i < j < |standings| ==> standings[i].trader != standings[j].trader
  }

  ghost predicate Strict(ranked: seq<Standing>) {
    forall i, j :: 0 <= i < j < |ranked| ==> Ahead(ranked[i], ranked[j])
  }

  lemma {:induction false} InsertHolds(s: Standing, ranked: seq<Standing>)
    ensures multiset(Insert(s, ranked)) == multiset(ranked) + multiset{s}
    ensures forall x :: x in Insert(s, ranked) <==> x == s || x in ranked
  {
    if ranked != [] {
      assert ranked == [ranked[0]] + ranked[1..];
      InsertHolds(s, ranked[1..]);
    }
  }

  lemma {:induction false} InsertRanks(s: Standing, ranked: seq<Standing>)
    requires Strict(ranked) && forall x :: x in ranked ==> x.trader != s.trader
    ensures Strict(Insert(s, ranked))
  {
    if ranked != [] {
      var first, rest := ranked[0], ranked[1..];
      assert forall i, j :: 0 <= i < j < |rest| ==> rest[i] == ranked[i + 1] && rest[j] == ranked[j + 1];
      assert forall i :: 0 <= i < |rest| ==> Ahead(first, rest[i]);
      AheadIsTotal(s, first);
      if Ahead(s, first) {
        forall i | 0 <= i < |rest|
          ensures Ahead(s, rest[i])
        {
          AheadIsTransitive(s, first, rest[i]);
        }
      } else {
        InsertRanks(s, rest);
        InsertHolds(s, rest);
        StrictCons(first, Insert(s, rest));
      }
    }
  }

  lemma StrictCons(first: Standing, rest: seq<Standing>)
    requires Strict(rest) && forall x :: x in rest ==> Ahead(first, x)
    ensures Strict([first] + rest)
  {
  }

  /** Places are strict, and everybody has one. */
  lemma {:induction false} RankingIsStrict(standings: seq<Standing>)
    requires OneEach(standings)
    ensures Strict(Ranked(standings)) && multiset(Ranked(standings)) == multiset(standings)
    ensures forall x :: x in Ranked(standings) <==> x in standings
  {
    if standings != [] {
      var front, last := standings[..|standings| - 1], standings[|standings| - 1];
      assert standings == front + [last];
      RankingIsStrict(front);
      InsertRanks(last, Ranked(front));
      InsertHolds(last, Ranked(front));
    }
  }

  lemma {:induction false} OneStrictOrder(a: seq<Standing>, b: seq<Standing>)
    requires Strict(a) && Strict(b) && forall x :: x in a <==> x in b
    ensures a == b
  {
    if |a| != 0 && |b| != 0 {
      assert a[0] in b && b[0] in a;
      SameFirst(a, b);
      forall x
        ensures Strict(a[1..]) && Strict(b[1..]) && (x in a[1..] <==> x in b[1..])
      {
        SameRest(a, b, x);
      }
      OneStrictOrder(a[1..], b[1..]);
      assert a == [a[0]] + a[1..] && b == [b[0]] + b[1..];
    } else {
      EmptyWith(a, b);
      EmptyWith(b, a);
    }
  }

  lemma EmptyWith(a: seq<Standing>, b: seq<Standing>)
    requires forall x :: x in b ==> x in a
    ensures a == [] ==> b == []
  {
    if b != [] {
      assert b[0] in b;
      assert b[0] in a;
    }
  }

  lemma SameFirst(a: seq<Standing>, b: seq<Standing>)
    requires Strict(a) && Strict(b) && a != [] && b != [] && a[0] in b && b[0] in a
    ensures a[0] == b[0]
  {
    AheadIsTotal(a[0], b[0]);
  }

  lemma RestOf(a: seq<Standing>, x: Standing)
    requires Strict(a) && a != []
    ensures Strict(a[1..]) && (x in a[1..] <==> x in a && x != a[0])
  {
    AheadIsTotal(a[0], a[0]);
    assert a == [a[0]] + a[1..];
    forall i, j | 0 <= i < j < |a| - 1
      ensures Ahead(a[1..][i], a[1..][j])
    {
      assert Ahead(a[i + 1], a[j + 1]);
    }
  }

  lemma SameRest(a: seq<Standing>, b: seq<Standing>, x: Standing)
    requires Strict(a) && Strict(b) && a != [] && b != [] && a[0] == b[0] && (x in a <==> x in b)
    ensures Strict(a[1..]) && Strict(b[1..]) && (x in a[1..] <==> x in b[1..])
  {
    RestOf(a, x);
    RestOf(b, x);
  }

  /** Anyone holding the same standings gets the same places, in whatever order they hold
      them. */
  lemma AnybodyCanRecompute(mine: seq<Standing>, theirs: seq<Standing>)
    requires OneEach(mine) && multiset(mine) == multiset(theirs)
    ensures Ranked(mine) == Ranked(theirs)
  {
    OneEachPermutes(mine, theirs);
    RankingIsStrict(mine);
    RankingIsStrict(theirs);
    forall x
      ensures x in Ranked(mine) <==> x in Ranked(theirs)
    {
      assert x in mine <==> x in multiset(mine);
      assert x in theirs <==> x in multiset(theirs);
    }
    OneStrictOrder(Ranked(mine), Ranked(theirs));
  }

  lemma OneEachPermutes(mine: seq<Standing>, theirs: seq<Standing>)
    requires OneEach(mine) && multiset(mine) == multiset(theirs)
    ensures OneEach(theirs)
  {
    forall i, j | 0 <= i < j < |theirs|
      ensures theirs[i].trader != theirs[j].trader
    {
      assert theirs[i] in multiset(theirs) && theirs[j] in multiset(theirs);
      var k :| 0 <= k < |mine| && mine[k] == theirs[i];
      var l :| 0 <= l < |mine| && mine[l] == theirs[j];
      if k == l {
        TwiceOver(theirs, i, j);
        OnceOnly(mine, k);
        assert false;
      }
    }
  }

  lemma TwiceOver(s: seq<Standing>, i: nat, j: nat)
    requires i < j < |s| && s[i] == s[j]
    ensures multiset(s)[s[i]] >= 2
  {
    var before, after := s[..j], s[j..];
    assert s == before + after && before[i] == s[i] && after[0] == s[i];
    assert s[i] in multiset(before) && s[i] in multiset(after);
    assert multiset(s) == multiset(before) + multiset(after);
  }

  lemma OnceOnly(s: seq<Standing>, k: nat)
    requires OneEach(s) && k < |s|
    ensures multiset(s)[s[k]] == 1
  {
    assert s == s[..k] + [s[k]] + s[k + 1..];
    assert s[k] !in s[..k] && s[k] !in s[k + 1..];
  }
}
