/** What a holding and an account are worth on the boards. */
module Leaderboard {
  import opened Fixed
  import opened Payments
  import opened PracticeTiers

  // ----- What a holding is worth -----

  type Mint = string

  const PRICE_SCALE: nat := 1_000_000_000_000_000_000

  datatype Held = Held(mint: Mint, tokenAmount: nat, costBasis: nat)

  /** A priced holding at its price, an unreadable one at what it cost. */
  function Marked(h: Held, prices: map<Mint, nat>): nat {
    if h.mint in prices then MulDivFloor(h.tokenAmount, prices[h.mint], PRICE_SCALE) else h.costBasis
  }

  function PositionValue(held: seq<Held>, prices: map<Mint, nat>): nat {
    if held == [] then 0 else PositionValue(held[..|held| - 1], prices) + Marked(held[|held| - 1], prices)
  }

  method ValueOf(held: seq<Held>, prices: map<Mint, nat>) returns (positionValue: nat)
    ensures positionValue == PositionValue(held, prices)
  {
    positionValue := 0;
    for i := 0 to |held|
      invariant positionValue == PositionValue(held[..i], prices)
    {
      assert held[..i + 1][..i] == held[..i];
      positionValue := positionValue + Marked(held[i], prices);
    }
    assert held[..|held|] == held;
  }

  lemma MarkedIsMonotone(h: Held, lower: map<Mint, nat>, higher: map<Mint, nat>)
    requires lower.Keys == higher.Keys && forall m :: m in lower ==> lower[m] <= higher[m]
    ensures Marked(h, lower) <= Marked(h, higher)
  {
    if h.mint in lower {
      var a, p, q := h.tokenAmount, lower[h.mint], higher[h.mint];
      ProductGrows(a, p, q);
      DivMonotone(a * p, a * q, PRICE_SCALE);
    }
  }

  lemma ProductGrows(a: nat, p: nat, q: nat)
    requires p <= q
    ensures a * p <= a * q
  {
    assert a * q == a * p + a * (q - p);
  }

  /** A price that rises never lowers an account's value. */
  lemma {:induction false} ValueIsMonotone(held: seq<Held>, lower: map<Mint, nat>, higher: map<Mint, nat>)
    requires lower.Keys == higher.Keys && forall m :: m in lower ==> lower[m] <= higher[m]
    ensures PositionValue(held, lower) <= PositionValue(held, higher)
  {
    if held != [] {
      ValueIsMonotone(held[..|held| - 1], lower, higher);
      MarkedIsMonotone(held[|held| - 1], lower, higher);
    }
  }

  /** What the priced holdings come to before any rounding, how many there are, and what
      the others cost. */
  function AtMarket(held: seq<Held>, prices: map<Mint, nat>): nat {
    if held == [] then 0
    else
      var h := held[|held| - 1];
      AtMarket(held[..|held| - 1], prices) + if h.mint in prices then h.tokenAmount * prices[h.mint] else 0
  }

  function PricedIn(held: seq<Held>, prices: map<Mint, nat>): nat {
    if held == [] then 0
    else PricedIn(held[..|held| - 1], prices) + if held[|held| - 1].mint in prices then 1 else 0
  }

  function UnpricedCost(held: seq<Held>, prices: map<Mint, nat>): nat {
    if held == [] then 0
    else
      var h := held[|held| - 1];
      UnpricedCost(held[..|held| - 1], prices) + if h.mint in prices then 0 else h.costBasis
  }

  /** The value is what the others cost and what the priced ones fetch, less under a lamport
      for each of these. */
  lemma {:induction false} ValueIsAtMarket(held: seq<Held>, prices: map<Mint, nat>)
    ensures var priced := PositionValue(held, prices) - UnpricedCost(held, prices);
      && priced * PRICE_SCALE <= AtMarket(held, prices)
      && AtMarket(held, prices) <= priced * PRICE_SCALE + PricedIn(held, prices) * (PRICE_SCALE - 1)
  {
    if held != [] {
      ValueIsAtMarket(held[..|held| - 1], prices);
    }
  }

  /** How much of a token is held. */
  function Tokens(held: seq<Held>, mint: Mint): nat {
    if held == [] then 0
    else Tokens(held[..|held| - 1], mint) + if held[|held| - 1].mint == mint then held[|held| - 1].tokenAmount else 0
  }

  /** A price that rises by so many whole lamports a token raises the value by as many for
      each token held, whatever they cost. */
  lemma {:induction false} ValueFollowsThePrice(held: seq<Held>, prices: map<Mint, nat>, mint: Mint, rise: nat)
    requires mint in prices
    ensures PositionValue(held, prices[mint := prices[mint] + rise * PRICE_SCALE])
         == PositionValue(held, prices) + rise * Tokens(held, mint)
  {
    if held != [] {
      ValueFollowsThePrice(held[..|held| - 1], prices, mint, rise);
      MarkedFollows(held[|held| - 1], prices, mint, rise);
      hide Marked;
      TimesTotal(rise, Tokens(held[..|held| - 1], mint), if held[|held| - 1].mint == mint then held[|held| - 1].tokenAmount else 0);
    }
  }

  lemma TimesTotal(n: nat, a: nat, b: nat)
    ensures n * (a + b) == n * a + n * b
  {
  }

  lemma MarkedFollows(h: Held, prices: map<Mint, nat>, mint: Mint, rise: nat)
    requires mint in prices
    ensures Marked(h, prices[mint := prices[mint] + rise * PRICE_SCALE])
         == Marked(h, prices) + rise * if h.mint == mint then h.tokenAmount else 0
  {
    hide MulDivFloor;
    if h.mint == mint {
      RiseOf(h.tokenAmount, prices[mint], rise);
    }
  }

  lemma RiseOf(a: nat, p: nat, rise: nat)
    ensures MulDivFloor(a, p + rise * PRICE_SCALE, PRICE_SCALE) == MulDivFloor(a, p, PRICE_SCALE) + rise * a
  {
    var q, r := MulDivFloor(a, p, PRICE_SCALE), MulDivFloor(a, p + rise * PRICE_SCALE, PRICE_SCALE);
    assert a * (p + rise * PRICE_SCALE) == a * p + (rise * a) * PRICE_SCALE;
    QuotientBelow(q + rise * a, PRICE_SCALE, r + 1);
    QuotientBelow(r, PRICE_SCALE, q + rise * a + 1);
  }

  function CostBasis(held: seq<Held>): nat {
    if held == [] then 0 else CostBasis(held[..|held| - 1]) + held[|held| - 1].costBasis
  }

  /** And where no price can be read the value is what was paid. */
  lemma {:induction false} UnreadableIsAtCost(held: seq<Held>, prices: map<Mint, nat>)
    requires forall i :: 0 <= i < |held| ==> held[i].mint !in prices
    ensures PositionValue(held, prices) == CostBasis(held)
  {
    if held != [] {
      UnreadableIsAtCost(held[..|held| - 1], prices);
    }
  }

  // ----- The all-time return -----

  /** A row of the all-time board; `paid` is what the query behind the board
      finds that its trader paid for practice SOL. */
  datatype Account = Account(startingBalance: nat, solBalance: nat, held: seq<Held>, paid: int, trades: nat)

  function Equity(a: Account, prices: map<Mint, nat>): nat {
    a.solBalance + PositionValue(a.held, prices)
  }

  function Basis(a: Account): nat {
    a.startingBalance + if a.paid <= 0 then 0 else Credit(Buys(BY_PRICE, a.paid))
  }

  method ToAllTime(a: Account, prices: map<Mint, nat>) returns (equity: nat, basis: nat, returnBps: int)
    ensures equity == Equity(a, prices) && basis == Basis(a)
    ensures returnBps == AllTimeBps(equity, basis)
  {
    var positionValue := ValueOf(a.held, prices);
    equity := a.solBalance + positionValue;
    var credited := CreditedFor(a.paid);
    basis := a.startingBalance + credited;
    returnBps := if basis == 0 then 0 else TruncatedDiv((equity - basis) * 10_000, basis);
  }

  /** The return on the starting balance and what the store credited. */
  function AllTimeBps(equity: int, basis: nat): int {
    if basis == 0 then 0 else TruncatedDiv((equity - basis) * 10_000, basis)
  }

  /** A return reads below nought exactly when at least a basis point has been lost, and
      above it exactly when at least one has been made. */
  lemma SignOfReturn(equity: int, basis: nat)
    ensures basis == 0 ==> AllTimeBps(equity, basis) == 0
    ensures basis > 0 ==> (AllTimeBps(equity, basis) < 0 <==> (basis - equity) * 10_000 >= basis)
    ensures basis > 0 ==> (AllTimeBps(equity, basis) > 0 <==> (equity - basis) * 10_000 >= basis)
  {
    if basis == 0 { return; }
    var x := (equity - basis) * 10_000;
    var q := AllTimeBps(equity, basis);
    if x >= 0 {
      PositiveIff(q, basis, x);
    } else {
      PositiveIff(-q, basis, -x);
    }
  }

  lemma PositiveIff(q: nat, n: nat, x: nat)
    requires n > 0 && q * n <= x < (q + 1) * n
    ensures q > 0 <==> x >= n
  {
    if q > 0 {
      assert q * n == (q - 1) * n + n && (q - 1) * n >= 0;
    }
  }

  // ----- What the board makes of a purchase -----

  /** The row of a free-play account, with what the query finds that its trader paid. */
  function RowOf(s: State, user: User, season: nat, held: seq<Held>, trades: nat): Account
    requires user in s.balances
  {
    Account(FREE_PLAY_START, s.balances[user], held, Purchased(s.payments, "settled", user, season), trades)
  }

  /** Purchases never reach the denominator. */
  lemma BasisIsTheStart(es: seq<Event>, user: User, season: nat, held: seq<Held>, trades: nat)
    requires IsRun(NEW, es) && user in Run(NEW, es).balances
    ensures Basis(RowOf(Run(NEW, es), user, season, held, trades)) == FREE_PLAY_START
  {
    PurchasedIsNought(es, user, season);
  }

  /** Had the query found the sum of them, the basis would be what the account started with
      and what was bought, never less, and exactly if the purchases do not stack. */
  lemma BasisOfPurchases(a: Account, purchases: Tiers)
    requires ListsAll(BY_PRICE, purchases) && a.paid == Cost(purchases)
    ensures Basis(a) >= a.startingBalance + Credit(purchases)
    ensures Basis(a) == a.startingBalance + Credit(purchases) <==> Unstacked(purchases)
  {
    CreditedAsBoughtIff(purchases);
    hide Unstacked, Buys;
    NothingCredited(purchases);
  }

  lemma NothingCredited(purchases: Tiers)
    requires ListsAll(BY_PRICE, purchases)
    ensures Cost(purchases) <= 0 ==> Credit(Buys(BY_PRICE, Cost(purchases))) == 0
  {
    CostIsPositive(BY_PRICE, purchases);
  }

  /** The board promises a return on what an account started with and what was bought. It
      keeps the promise for exactly those who bought nothing. */
  lemma PromiseKeptIff(es: seq<Event>, user: User, season: nat, held: seq<Held>, trades: nat)
    requires IsRun(NEW, es) && user in Run(NEW, es).balances
    ensures var s := Run(NEW, es);
      Basis(RowOf(s, user, season, held, trades)) == FREE_PLAY_START + CreditedTo(s.payments, user)
      <==> PaidBy(s.payments, user) == 0
  {
    BasisIsTheStart(es, user, season, held, trades);
    BoughtIffCredited(es, user);
  }

  /** A quotient of a larger fraction, rounded toward nought, is no smaller. */
  lemma TruncatedIsMonotone(x: int, n: nat, y: int, m: nat)
    requires n > 0 && m > 0 && x * m >= y * n
    ensures TruncatedDiv(x, n) >= TruncatedDiv(y, m)
  {
    var q, r := TruncatedDiv(x, n), TruncatedDiv(y, m);
    if q < r {
      FarApart(x, n, y, m, q, r);
    }
  }

  /** Two fractions on either side of a whole number. */
  lemma Crossed(x: int, n: nat, y: int, m: nat, k: int)
    requires n > 0 && m > 0 && x <= k * n && k * m <= y && (x < k * n || k * m < y)
    ensures x * m < y * n
  {
    var a, b := k * n - x, y - k * m;
    SignOfProduct(a, m);
    SignOfProduct(b, n);
    assert a * m + b * n == (k * n) * m - x * m + y * n - (k * m) * n;
    Reordered(k, n, m);
  }

  lemma SignOfProduct(a: nat, n: nat)
    requires n > 0
    ensures a * n >= 0 && (a > 0 ==> a * n > 0)
  {
  }

  lemma Reordered(k: int, n: nat, m: nat)
    ensures (k * n) * m == (k * m) * n
  {
  }

  lemma FarApart(x: int, n: nat, y: int, m: nat, q: int, r: int)
    requires n > 0 && m > 0 && q < r
    requires (x >= 0 && q >= 0 && x < (q + 1) * n) || (x <= 0 && q <= 0 && x <= q * n)
    requires (y >= 0 && r >= 0 && r * m <= y) || (y <= 0 && r <= 0 && (r - 1) * m < y)
    ensures x * m < y * n
  {
    if x >= 0 && q >= 0 && x < (q + 1) * n {
      ProductGrows(m, q + 1, r);
      Crossed(x, n, y, m, q + 1);
    } else if y <= 0 && r <= 0 && (r - 1) * m < y {
      ProductGrows(m, -(r - 1), -q);
      Crossed(x, n, y, m, q);
    } else {
      Straddled(x, n, y, m, q, r);
    }
  }

  /** With nought between them. */
  lemma Straddled(x: int, n: nat, y: int, m: nat, q: int, r: int)
    requires n > 0 && m > 0 && q < r && x <= q * n && q <= 0 <= r && r * m <= y
    ensures x * m < y * n
  {
    ProductGrows(n, 0, -q);
    ProductGrows(m, 0, r);
    if r > 0 {
      ProductGrows(m, 1, r);
    } else {
      ProductGrows(n, 1, -q);
    }
    Crossed(x, n, y, m, 0);
  }

  lemma LargerBasisShowsLess(equity: nat, start: nat, bought: nat)
    requires start > 0
    ensures AllTimeBps(equity, start) >= AllTimeBps(equity, start + bought)
  {
    var x, y := (equity - start) * 10_000, (equity - start - bought) * 10_000;
    CrossProducts(equity, start, bought);
    TruncatedIsMonotone(x, start, y, start + bought);
  }

  /** And the return it shows the others is never below the one it promised. */
  lemma NeverBelowThePromise(es: seq<Event>, user: User, season: nat, held: seq<Held>, trades: nat, prices: map<Mint, nat>)
    requires IsRun(NEW, es) && user in Run(NEW, es).balances
    ensures var s := Run(NEW, es); var row := RowOf(s, user, season, held, trades);
      AllTimeBps(Equity(row, prices), Basis(row))
      >= AllTimeBps(Equity(row, prices), FREE_PLAY_START + CreditedTo(s.payments, user))
  {
    BasisIsTheStart(es, user, season, held, trades);
    hide Basis, AllTimeBps, CreditedTo;
    var s := Run(NEW, es);
    LargerBasisShowsLess(Equity(RowOf(s, user, season, held, trades), prices), FREE_PLAY_START, CreditedTo(s.payments, user));
  }

  lemma CrossProducts(equity: nat, start: nat, bought: nat)
    ensures (equity - start) * 10_000 * (start + bought) >= (equity - start - bought) * 10_000 * start
  {
  }

  /** Where the promise is nought: an account worth what it started with and bought is shown
      ten percent for every SOL bought. */
  lemma BreakEvenReadsWhatWasBought(es: seq<Event>, user: User, season: nat, held: seq<Held>, trades: nat, prices: map<Mint, nat>)
    requires IsRun(NEW, es) && user in Run(NEW, es).balances
    requires Equity(RowOf(Run(NEW, es), user, season, held, trades), prices)
          == FREE_PLAY_START + CreditedTo(Run(NEW, es).payments, user)
    ensures var s := Run(NEW, es); var row := RowOf(s, user, season, held, trades);
      AllTimeBps(Equity(row, prices), Basis(row)) == 1_000 * SolTo(s.payments, user)
  {
    BasisIsTheStart(es, user, season, held, trades);
    CreditedInSol(Run(NEW, es).payments, user);
    BpsOf(SolTo(Run(NEW, es).payments, user));
  }

  lemma BpsOf(sol: nat)
    ensures AllTimeBps(FREE_PLAY_START + sol * LAMPORTS_PER_SOL, FREE_PLAY_START) == 1_000 * sol
  {
    var x := sol * LAMPORTS_PER_SOL * 10_000;
    assert x == 1_000 * sol * FREE_PLAY_START;
    QuotientIs(x, FREE_PLAY_START, TruncatedDiv(x, FREE_PLAY_START), 1_000 * sol);
  }

  lemma QuotientIs(x: nat, n: nat, q: nat, r: nat)
    requires n > 0 && q * n <= x < (q + 1) * n && x == r * n
    ensures q == r
  {
    QuotientAtMost(q, n, r);
    QuotientBelow(r, n, q + 1);
  }

  lemma NothingHeld(prices: map<Mint, nat>)
    ensures PositionValue([], prices) == 0
  {
  }

  /** Such a row is on the board: one tier bought, and one SOL of it spent on a token whose
      price cannot be read, so held at cost. */
  lemma OneTierBuyerReadsAGain(user: User, tier: Tier, signature: Signature, season: nat, mint: Mint, tokens: nat)
    requires OnTable(tier)
    ensures var es := OnePurchase(user, tier, signature, -LAMPORTS_PER_SOL);
      && IsRun(NEW, es) && user in Run(NEW, es).balances
      && var row := RowOf(Run(NEW, es), user, season, [Held(mint, tokens, LAMPORTS_PER_SOL)], 1);
         && row.trades > 0 && Equity(row, map[]) == FREE_PLAY_START + CreditFor(tier)
         && AllTimeBps(Equity(row, map[]), Basis(row)) == 1_000 * tier.sol > 0
         && AllTimeBps(Equity(row, map[]), FREE_PLAY_START + CreditFor(tier)) == 0
  {
    var es := OnePurchase(user, tier, signature, -LAMPORTS_PER_SOL);
    OnePurchaseReaches(user, tier, signature, -LAMPORTS_PER_SOL);
    PurchasedIsNought(es, user, season);
    var held := [Held(mint, tokens, LAMPORTS_PER_SOL)];
    assert held[..0] == [];
    NothingHeld(map[]);
    BpsOf(tier.sol);
  }

  /** Ten SOL bought and turned into eleven is shown as a hundred and ten percent, on a
      board that says it is not. */
  lemma TenIntoElevenReadsAHundredAndTen(user: User, signature: Signature, season: nat)
    ensures var es := OnePurchase(user, TEN, signature, LAMPORTS_PER_SOL);
      && IsRun(NEW, es) && user in Run(NEW, es).balances
      && var row := RowOf(Run(NEW, es), user, season, [], 1);
         && AllTimeBps(Equity(row, map[]), Basis(row)) == 11_000
         && AllTimeBps(Equity(row, map[]), FREE_PLAY_START + CreditFor(TEN)) == 500
  {
    var es := OnePurchase(user, TEN, signature, LAMPORTS_PER_SOL);
    OnePurchaseReaches(user, TEN, signature, LAMPORTS_PER_SOL);
    PurchasedIsNought(es, user, season);
    NothingHeld(map[]);
    BpsOf(11);
  }
}
