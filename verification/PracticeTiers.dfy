/** The practice tiers, what a payment is credited with, and when that is what was bought. */
module PracticeTiers {

  // ----- The practice tiers -----

  const LAMPORTS_PER_SOL := 1_000_000_000

  datatype Tier = Tier(sol: nat, price: int)

  /** A list of tiers, on sale or bought. */
  datatype Tiers = Nothing | More(first: Tier, rest: Tiers)

  const ONE := Tier(1, 10_000_000)
  const THREE := Tier(3, 25_000_000)
  const TEN := Tier(10, 60_000_000)
  const TWENTY_FIVE := Tier(25, 120_000_000)
  const FIFTY := Tier(50, 200_000_000)
  const HUNDRED := Tier(100, 350_000_000)

  /** The table, dearest first. */
  const BY_PRICE := More(HUNDRED, More(FIFTY, More(TWENTY_FIVE, More(TEN, More(THREE, More(ONE, Nothing))))))

  predicate Lists(ts: Tiers, t: Tier) {
    ts.More? && (ts.first == t || Lists(ts.rest, t))
  }

  predicate OnTable(t: Tier) {
    t == ONE || t == THREE || t == TEN || t == TWENTY_FIVE || t == FIFTY || t == HUNDRED
  }

  lemma OnTheTable(t: Tier)
    requires Lists(BY_PRICE, t)
    ensures OnTable(t)
  {
    var upToFifty := BY_PRICE.rest;
    var upToTwentyFive := upToFifty.rest;
    var upToTen := upToTwentyFive.rest;
    var upToThree := upToTen.rest;
    assert t == HUNDRED || Lists(upToFifty, t);
    assert t == HUNDRED || t == FIFTY || Lists(upToTwentyFive, t);
    assert Lists(upToTwentyFive, t) ==> t == TWENTY_FIVE || Lists(upToTen, t);
    assert Lists(upToTen, t) ==> t == TEN || Lists(upToThree, t);
    assert Lists(upToThree, t) ==> t == THREE || Lists(upToThree.rest, t);
    assert Lists(upToThree.rest, t) ==> t == ONE || Lists(upToThree.rest.rest, t);
  }

  predicate ListsAll(ts: Tiers, some: Tiers) {
    some.More? ==> Lists(ts, some.first) && ListsAll(ts, some.rest)
  }

  predicate AllOnTable(ts: Tiers) {
    ts.More? ==> OnTable(ts.first) && AllOnTable(ts.rest)
  }

  lemma {:induction false} ListedAreOnTable(ts: Tiers)
    requires ListsAll(BY_PRICE, ts)
    ensures AllOnTable(ts)
  {
    if ts.More? {
      ListedAreOnTable(ts.rest);
      OnTheTable(ts.first);
    }
  }

  predicate PositivePrices(ts: Tiers) {
    ts.More? ==> ts.first.price > 0 && PositivePrices(ts.rest)
  }

  function Cost(ts: Tiers): int {
    if ts.Nothing? then 0 else ts.first.price + Cost(ts.rest)
  }

  function Sol(ts: Tiers): nat {
    if ts.Nothing? then 0 else ts.first.sol + Sol(ts.rest)
  }

  function CreditFor(t: Tier): nat {
    t.sol * LAMPORTS_PER_SOL
  }

  function Credit(ts: Tiers): nat {
    if ts.Nothing? then 0 else CreditFor(ts.first) + Credit(ts.rest)
  }

  /** What buying from the front of the list, while it can be afforded, buys. */
  function Buys(ts: Tiers, left: int): Tiers
    requires PositivePrices(ts)
    decreases ts, left
  {
    if ts.Nothing? then Nothing
    else if left >= ts.first.price then More(ts.first, Buys(ts, left - ts.first.price))
    else Buys(ts.rest, left)
  }

  /** What a payment bought: the exact tier where there is one, and otherwise as much as
      can be had, dearest first. */
  method CreditedFor(paid: int) returns (credited: nat)
    ensures credited == if paid <= 0 then 0 else Credit(Buys(BY_PRICE, paid))
  {
    if paid <= 0 { return 0; }
    var find := BY_PRICE;
    while find.More?
      invariant ListsAll(BY_PRICE, find)
      decreases find
    {
      if find.first.price == paid {
        ExactBranchIsRedundant(find.first);
        return CreditFor(find.first);
      }
      find := find.rest;
    }
    credited := 0;
    var left, ts := paid, BY_PRICE;
    while ts.More?
      invariant PositivePrices(ts) && left >= 0
      invariant credited + Credit(Buys(ts, left)) == Credit(Buys(BY_PRICE, paid))
      decreases ts
    {
      while left >= ts.first.price
        invariant PositivePrices(ts) && left >= 0 && ts.More?
        invariant credited + Credit(Buys(ts, left)) == Credit(Buys(BY_PRICE, paid))
        decreases left
      {
        left := left - ts.first.price;
        credited := credited + CreditFor(ts.first);
      }
      ts := ts.rest;
    }
  }

  /** At any positive prices the payment is spent on listed tiers, at no more than was
      paid, until what is left would buy none of them. */
  lemma {:induction false} SpentDownToTheCheapest(ts: Tiers, paid: int)
    requires PositivePrices(ts) && paid >= 0
    ensures ListsAll(ts, Buys(ts, paid))
    ensures Cost(Buys(ts, paid)) <= paid
    ensures forall t :: Lists(ts, t) ==> paid - Cost(Buys(ts, paid)) < t.price
    decreases ts, paid
  {
    if ts.More? {
      if paid >= ts.first.price {
        SpentDownToTheCheapest(ts, paid - ts.first.price);
      } else {
        SpentDownToTheCheapest(ts.rest, paid);
        AllInLonger(ts, Buys(ts.rest, paid));
        var bought := Buys(ts.rest, paid);
        CostIsPositive(ts.rest, bought);
      }
    }
  }

  lemma {:induction false} AllInLonger(ts: Tiers, some: Tiers)
    requires ts.More? && ListsAll(ts.rest, some)
    ensures ListsAll(ts, some)
  {
    if some.More? {
      AllInLonger(ts, some.rest);
    }
  }

  lemma {:induction false} CostIsPositive(ts: Tiers, some: Tiers)
    requires PositivePrices(ts) && ListsAll(ts, some)
    ensures Cost(some) >= 0
  {
    if some.More? {
      CostIsPositive(ts, some.rest);
      PriceIsPositive(ts, some.first);
    }
  }

  lemma {:induction false} PriceIsPositive(ts: Tiers, t: Tier)
    requires PositivePrices(ts) && Lists(ts, t)
    ensures t.price > 0
  {
    if ts.first != t {
      PriceIsPositive(ts.rest, t);
    }
  }

  lemma {:induction false} CreditIsSol(ts: Tiers)
    ensures Credit(ts) == Sol(ts) * LAMPORTS_PER_SOL
  {
    if ts.More? {
      CreditIsSol(ts.rest);
    }
  }

  // ----- Dearest first is as much as the money could have bought -----

  /** What buying dearest first credits, in SOL. */
  function Best(paid: nat): nat {
    if paid >= 350_000_000 then 100 + Best(paid - 350_000_000)
    else if paid >= 200_000_000 then 50 + Best(paid - 200_000_000)
    else if paid >= 120_000_000 then 25 + Best(paid - 120_000_000)
    else if paid >= 60_000_000 then 10 + Best(paid - 60_000_000)
    else if paid >= 25_000_000 then 3 + Best(paid - 25_000_000)
    else if paid >= 10_000_000 then 1 + Best(paid - 10_000_000)
    else 0
  }

  lemma {:induction false} BuysOnes(r: nat)
    requires r < 25_000_000
    ensures Sol(Buys(More(ONE, Nothing), r)) == Best(r)
  {
    if r >= 10_000_000 {
      BuysOnes(r - 10_000_000);
    }
  }

  lemma {:induction false} BuysThrees(r: nat)
    requires r < 60_000_000
    ensures Sol(Buys(More(THREE, More(ONE, Nothing)), r)) == Best(r)
  {
    if r >= 25_000_000 {
      BuysThrees(r - 25_000_000);
    } else {
      BuysOnes(r);
    }
  }

  lemma {:induction false} BuysTens(r: nat)
    requires r < 120_000_000
    ensures Sol(Buys(More(TEN, More(THREE, More(ONE, Nothing))), r)) == Best(r)
  {
    if r >= 60_000_000 {
      BuysTens(r - 60_000_000);
    } else {
      BuysThrees(r);
    }
  }

  lemma {:induction false} BuysTwentyFives(r: nat)
    requires r < 200_000_000
    ensures Sol(Buys(BY_PRICE.rest.rest, r)) == Best(r)
  {
    if r >= 120_000_000 {
      BuysTwentyFives(r - 120_000_000);
    } else {
      BuysTens(r);
    }
  }

  lemma {:induction false} BuysFifties(r: nat)
    requires r < 350_000_000
    ensures Sol(Buys(BY_PRICE.rest, r)) == Best(r)
  {
    if r >= 200_000_000 {
      BuysFifties(r - 200_000_000);
    } else {
      BuysTwentyFives(r);
    }
  }

  lemma {:induction false} BuysBest(paid: nat)
    ensures Sol(Buys(BY_PRICE, paid)) == Best(paid)
  {
    if paid >= 350_000_000 {
      BuysBest(paid - 350_000_000);
    } else {
      BuysFifties(paid);
    }
  }

  // What the cheap tiers come to, and bounds on the rest.

  function UnderTen(r: int): nat {
    if r < 10_000_000 then 0
    else if r < 20_000_000 then 1
    else if r < 25_000_000 then 2
    else if r < 35_000_000 then 3
    else if r < 45_000_000 then 4
    else if r < 50_000_000 then 5
    else 6
  }

  lemma BestUnderThree(r: nat)
    requires r < 25_000_000
    ensures Best(r) == UnderTen(r)
  {
    if r >= 20_000_000 {
      assert Best(r - 10_000_000) == 1 + Best(r - 20_000_000);
    }
  }

  lemma BestUnderTen(r: nat)
    requires r < 60_000_000
    ensures Best(r) == UnderTen(r) <= 6
  {
    if r < 25_000_000 {
      BestUnderThree(r);
    } else if r < 50_000_000 {
      BestUnderThree(r - 25_000_000);
    } else {
      BestUnderThree(r - 50_000_000);
      assert Best(r - 25_000_000) == 3 + Best(r - 50_000_000);
    }
  }

  lemma AtMostUnderTwentyFive(r: nat)
    requires r < 120_000_000
    ensures Best(r) <= 16
  {
    BestUnderTen(if r < 60_000_000 then r else r - 60_000_000);
  }

  lemma AtMostUnderFifty(r: nat)
    requires r < 200_000_000
    ensures Best(r) <= 36
  {
    if r < 120_000_000 {
      AtMostUnderTwentyFive(r);
    } else if r < 180_000_000 {
      BestUnderTen(r - 120_000_000);
    } else {
      BestUnderTen(r - 180_000_000);
      assert Best(r - 120_000_000) == 10 + Best(r - 180_000_000);
    }
  }

  lemma AtMostUnderHundred(r: nat)
    requires r < 350_000_000
    ensures Best(r) <= 78
  {
    if r < 200_000_000 {
      AtMostUnderFifty(r);
    } else if r < 320_000_000 {
      AtMostUnderTwentyFive(r - 200_000_000);
    } else {
      BestUnderTen(r - 320_000_000);
      assert Best(r - 200_000_000) == 25 + Best(r - 320_000_000);
    }
  }

  // No tier is worth more than the credit its price adds.

  ghost predicate Fair(paid: nat, price: nat, sol: nat) {
    price <= paid && Best(paid) >= sol + Best(paid - price)
  }

  /** A payment of two parts, the first of which is bought first either way. */
  lemma FairAbove(paid: nat, first: nat, credit: nat, price: nat, sol: nat)
    requires price + first <= paid && Fair(paid - first, price, sol)
    requires Best(paid) == credit + Best(paid - first)
    requires Best(paid - price) == credit + Best(paid - price - first)
    ensures Fair(paid, price, sol)
  {
    assert paid - first - price == paid - price - first;
  }

  lemma FairUnderTen(r: nat, price: nat, sol: nat)
    requires (price == 10_000_000 && sol == 1) || (price == 25_000_000 && sol == 3)
    requires price <= r < 60_000_000
    ensures Fair(r, price, sol)
  {
    BestUnderTen(r);
    BestUnderTen(r - price);
  }

  lemma CheapUnderTwentyFive(r: nat, price: nat, sol: nat)
    requires (price == 10_000_000 && sol == 1) || (price == 25_000_000 && sol == 3)
    requires price <= r < 120_000_000
    ensures Fair(r, price, sol)
  {
    if r < 60_000_000 {
      FairUnderTen(r, price, sol);
    } else if r - price >= 60_000_000 {
      FairUnderTen(r - 60_000_000, price, sol);
      FairAbove(r, 60_000_000, 10, price, sol);
    } else {
      BestUnderTen(r - price);
    }
  }

  lemma FairUnderTwentyFive(r: nat, price: nat, sol: nat)
    requires (price == 10_000_000 && sol == 1) || (price == 25_000_000 && sol == 3) || (price == 60_000_000 && sol == 10)
    requires price <= r < 120_000_000
    ensures Fair(r, price, sol)
  {
    if price < 60_000_000 {
      CheapUnderTwentyFive(r, price, sol);
    }
  }

  lemma TenUnderFifty(r: nat)
    requires 60_000_000 <= r < 200_000_000
    ensures Fair(r, 60_000_000, 10)
  {
    if r < 120_000_000 {
      FairUnderTwentyFive(r, 60_000_000, 10);
    } else if r < 180_000_000 {
      assert Best(r - 60_000_000) == 10 + Best(r - 120_000_000);
    } else {
      FairUnderTwentyFive(r - 120_000_000, 60_000_000, 10);
      FairAbove(r, 120_000_000, 25, 60_000_000, 10);
    }
  }

  lemma CheapUnderFifty(r: nat, price: nat, sol: nat)
    requires (price == 10_000_000 && sol == 1) || (price == 25_000_000 && sol == 3)
    requires price <= r < 200_000_000
    ensures Fair(r, price, sol)
  {
    if r < 120_000_000 {
      CheapUnderTwentyFive(r, price, sol);
    } else if r - price >= 120_000_000 {
      CheapUnderTwentyFive(r - 120_000_000, price, sol);
      FairAbove(r, 120_000_000, 25, price, sol);
    } else {
      AtMostUnderTwentyFive(r - price);
    }
  }

  lemma FairUnderFifty(r: nat, price: nat, sol: nat)
    requires (price == 10_000_000 && sol == 1) || (price == 25_000_000 && sol == 3) || (price == 60_000_000 && sol == 10)
    requires price <= r < 200_000_000
    ensures Fair(r, price, sol)
  {
    if price == 60_000_000 {
      TenUnderFifty(r);
    } else {
      CheapUnderFifty(r, price, sol);
    }
  }

  lemma UpToTenUnderHundred(r: nat, price: nat, sol: nat)
    requires (price == 10_000_000 && sol == 1) || (price == 25_000_000 && sol == 3) || (price == 60_000_000 && sol == 10)
    requires price <= r < 350_000_000
    ensures Fair(r, price, sol)
  {
    if r < 200_000_000 {
      FairUnderFifty(r, price, sol);
    } else if r - price >= 200_000_000 {
      FairUnderFifty(r - 200_000_000, price, sol);
      FairAbove(r, 200_000_000, 50, price, sol);
    } else {
      AtMostUnderFifty(r - price);
    }
  }

  lemma FortyMore(u: nat)
    requires u < 80_000_000
    ensures Best(u) <= Best(u + 40_000_000)
  {
    CheapUnderTwentyFive(u + 10_000_000, 10_000_000, 1);
    CheapUnderTwentyFive(u + 20_000_000, 10_000_000, 1);
    CheapUnderTwentyFive(u + 30_000_000, 10_000_000, 1);
    CheapUnderTwentyFive(u + 40_000_000, 10_000_000, 1);
  }

  lemma TwentyFiveUnderHundred(r: nat)
    requires 120_000_000 <= r < 350_000_000
    ensures Fair(r, 120_000_000, 25)
  {
    if 200_000_000 <= r < 240_000_000 {
      AtMostUnderTwentyFive(r - 120_000_000);
    } else if 240_000_000 <= r < 320_000_000 {
      FortyMore(r - 240_000_000);
      assert Best(r - 120_000_000) == 25 + Best(r - 240_000_000);
    } else if r >= 320_000_000 {
      assert Best(r - 200_000_000) == 25 + Best(r - 320_000_000);
    }
  }

  lemma UpToTenAcross(r: nat, price: nat, sol: nat)
    requires (price == 10_000_000 && sol == 1) || (price == 25_000_000 && sol == 3) || (price == 60_000_000 && sol == 10)
    requires r < price
    ensures Fair(r + 350_000_000, price, sol)
  {
    AtMostUnderHundred(r + 350_000_000 - price);
  }

  lemma TwentyFiveAcross(r: nat)
    requires r < 120_000_000
    ensures Fair(r + 350_000_000, 120_000_000, 25)
  {
    assert Best(r + 230_000_000) == 50 + Best(r + 30_000_000);
    if r < 90_000_000 {
      AtMostUnderTwentyFive(r + 30_000_000);
    } else {
      BestUnderTen(r - 90_000_000);
      assert Best(r + 30_000_000) == 25 + Best(r - 90_000_000);
      assert Best(r) == 10 + Best(r - 60_000_000);
    }
  }

  lemma FiftyAcross(r: nat)
    requires r < 200_000_000
    ensures Fair(r + 350_000_000, 200_000_000, 50)
  {
    if r < 50_000_000 {
      AtMostUnderFifty(r + 150_000_000);
    } else {
      assert Best(r + 150_000_000) == 50 + Best(r - 50_000_000);
      CheapUnderFifty(r, 25_000_000, 3);
      CheapUnderFifty(r - 25_000_000, 25_000_000, 3);
    }
  }

  predicate Sells(price: nat, sol: nat) {
    || (price == 10_000_000 && sol == 1) || (price == 25_000_000 && sol == 3) || (price == 60_000_000 && sol == 10)
    || (price == 120_000_000 && sol == 25) || (price == 200_000_000 && sol == 50)
  }

  lemma FairUnderHundred(r: nat, price: nat, sol: nat)
    requires Sells(price, sol) && price <= r < 350_000_000
    ensures Fair(r, price, sol)
  {
    if price <= 60_000_000 {
      UpToTenUnderHundred(r, price, sol);
    } else if price == 120_000_000 {
      TwentyFiveUnderHundred(r);
    }
  }

  lemma FairAcross(r: nat, price: nat, sol: nat)
    requires Sells(price, sol) && r < price
    ensures Fair(r + 350_000_000, price, sol)
  {
    if price <= 60_000_000 {
      UpToTenAcross(r, price, sol);
    } else if price == 120_000_000 {
      TwentyFiveAcross(r);
    } else {
      FiftyAcross(r);
    }
  }

  lemma {:induction false} FairAlways(paid: nat, price: nat, sol: nat)
    requires Sells(price, sol) && price <= paid
    ensures Fair(paid, price, sol)
  {
    if paid < 350_000_000 {
      FairUnderHundred(paid, price, sol);
    } else if paid - price < 350_000_000 {
      FairAcross(paid - 350_000_000, price, sol);
    } else {
      FairAlways(paid - 350_000_000, price, sol);
      FairAbove(paid, 350_000_000, 100, price, sol);
    }
  }

  /** No tier is worth more than the credit its price adds. */
  lemma NoTierBeatsIt(paid: nat, t: Tier)
    requires OnTable(t) && t.price <= paid
    ensures Best(paid) >= t.sol + Best(paid - t.price)
  {
    if t != HUNDRED {
      FairAlways(paid, t.price, t.sol);
    }
  }

  /** Nothing that could have been bought with the money credits more than the payment is
      credited with. */
  lemma {:induction false} NoBasketBeatsIt(basket: Tiers, paid: nat)
    requires ListsAll(BY_PRICE, basket) && Cost(basket) <= paid
    ensures Credit(basket) <= Credit(Buys(BY_PRICE, paid))
  {
    ListedAreOnTable(basket);
    BasketWithin(basket, paid);
    BuysBest(paid);
    CreditIsSol(basket);
    CreditIsSol(Buys(BY_PRICE, paid));
  }

  lemma {:induction false} BasketWithin(basket: Tiers, paid: nat)
    requires AllOnTable(basket) && Cost(basket) <= paid
    ensures Cost(basket) >= 0 && Sol(basket) <= Best(paid)
  {
    if basket.More? {
      TableCost(basket.rest);
      BasketWithin(basket.rest, paid - basket.first.price);
      NoTierBeatsIt(paid, basket.first);
    }
  }

  lemma {:induction false} TableCost(ts: Tiers)
    requires AllOnTable(ts)
    ensures Cost(ts) >= 0
  {
    if ts.More? {
      TableCost(ts.rest);
    }
  }

  lemma {:induction false} BestRate(paid: nat)
    ensures Best(paid) * 350_000_000 <= paid * 100
  {
    if paid >= 350_000_000 {
      BestRate(paid - 350_000_000);
    } else if paid >= 200_000_000 {
      BestRate(paid - 200_000_000);
    } else if paid >= 120_000_000 {
      BestRate(paid - 120_000_000);
    } else if paid >= 60_000_000 {
      BestRate(paid - 60_000_000);
    } else if paid >= 25_000_000 {
      BestRate(paid - 25_000_000);
    } else if paid >= 10_000_000 {
      BestRate(paid - 10_000_000);
    }
  }

  /** A payment is credited at the best rate on the table, a hundred for 350 million
      lamports, or a worse one. */
  lemma AtMostTheBestRate(paid: nat)
    ensures Credit(Buys(BY_PRICE, paid)) * 350_000_000 <= paid * (100 * LAMPORTS_PER_SOL)
  {
    BestRate(paid);
    BuysBest(paid);
    CreditIsSol(Buys(BY_PRICE, paid));
  }

  lemma ExactBranchIsRedundant(t: Tier)
    requires Lists(BY_PRICE, t)
    ensures Buys(BY_PRICE, t.price) == More(t, Nothing)
  {
    OnTheTable(t);
    NothingForNothing(BY_PRICE);
  }

  lemma {:induction false} NothingForNothing(ts: Tiers)
    requires PositivePrices(ts)
    ensures Buys(ts, 0) == Nothing
  {
    if ts.More? {
      NothingForNothing(ts.rest);
    }
  }

  // ----- The credit of a sum -----

  /** How many of the purchases were of so much SOL. */
  function Bought(ts: Tiers, sol: nat): nat {
    if ts.Nothing? then 0 else Bought(ts.rest, sol) + if ts.first.sol == sol then 1 else 0
  }

  /** What was spent on tiers cheaper than `price`. */
  function Below(ts: Tiers, price: int): int {
    if ts.Nothing? then 0 else Below(ts.rest, price) + if ts.first.price < price then ts.first.price else 0
  }

  /** What was spent below each dearer tier would not have bought it, nor were there five
      singles, which two threes would have beaten. */
  predicate Unstacked(ts: Tiers) {
    && Bought(ts, 1) != 5
    && Below(ts, 60_000_000) < 60_000_000
    && Below(ts, 120_000_000) < 120_000_000
    && Below(ts, 200_000_000) < 200_000_000
    && Below(ts, 350_000_000) < 350_000_000
  }

  /** How many of each tier were bought. */
  datatype Tally = Tally(ones: nat, threes: nat, tens: nat, twentyFives: nat, fifties: nat, hundreds: nat)

  // What was spent on the tiers cheaper than each.

  function BelowTen(t: Tally): nat {
    10_000_000 * t.ones + 25_000_000 * t.threes
  }

  function BelowTwentyFive(t: Tally): nat {
    BelowTen(t) + 60_000_000 * t.tens
  }

  function BelowFifty(t: Tally): nat {
    BelowTwentyFive(t) + 120_000_000 * t.twentyFives
  }

  function BelowHundred(t: Tally): nat {
    BelowFifty(t) + 200_000_000 * t.fifties
  }

  function TallyCost(t: Tally): nat {
    BelowHundred(t) + 350_000_000 * t.hundreds
  }

  // And what it bought.

  function SolBelowTen(t: Tally): nat {
    t.ones + 3 * t.threes
  }

  function SolBelowTwentyFive(t: Tally): nat {
    SolBelowTen(t) + 10 * t.tens
  }

  function SolBelowFifty(t: Tally): nat {
    SolBelowTwentyFive(t) + 25 * t.twentyFives
  }

  function SolBelowHundred(t: Tally): nat {
    SolBelowFifty(t) + 50 * t.fifties
  }

  function TallySol(t: Tally): nat {
    SolBelowHundred(t) + 100 * t.hundreds
  }

  /** The condition on a tally. */
  predicate Loose(t: Tally) {
    && t.ones != 5
    && BelowTen(t) < 60_000_000
    && BelowTwentyFive(t) < 120_000_000
    && BelowFifty(t) < 200_000_000
    && BelowHundred(t) < 350_000_000
  }

  // The purchases as a tally, one tier at a time.

  function Worth(ts: Tiers, price: int): int {
    if ts.Nothing? then 0 else Worth(ts.rest, price) + if ts.first.price < price then ts.first.sol else 0
  }

  lemma {:induction false} UpToOne(ts: Tiers)
    requires AllOnTable(ts)
    ensures Below(ts, 25_000_000) == 10_000_000 * Bought(ts, 1) && Worth(ts, 25_000_000) == Bought(ts, 1)
  {
    if ts.More? {
      UpToOne(ts.rest);
    }
  }

  lemma {:induction false} UpToThree(ts: Tiers)
    requires AllOnTable(ts)
    ensures Below(ts, 60_000_000) == Below(ts, 25_000_000) + 25_000_000 * Bought(ts, 3)
    ensures Worth(ts, 60_000_000) == Worth(ts, 25_000_000) + 3 * Bought(ts, 3)
  {
    if ts.More? {
      UpToThree(ts.rest);
    }
  }

  lemma {:induction false} UpToTen(ts: Tiers)
    requires AllOnTable(ts)
    ensures Below(ts, 120_000_000) == Below(ts, 60_000_000) + 60_000_000 * Bought(ts, 10)
    ensures Worth(ts, 120_000_000) == Worth(ts, 60_000_000) + 10 * Bought(ts, 10)
  {
    if ts.More? {
      UpToTen(ts.rest);
    }
  }

  lemma {:induction false} UpToTwentyFive(ts: Tiers)
    requires AllOnTable(ts)
    ensures Below(ts, 200_000_000) == Below(ts, 120_000_000) + 120_000_000 * Bought(ts, 25)
    ensures Worth(ts, 200_000_000) == Worth(ts, 120_000_000) + 25 * Bought(ts, 25)
  {
    if ts.More? {
      UpToTwentyFive(ts.rest);
    }
  }

  lemma {:induction false} UpToFifty(ts: Tiers)
    requires AllOnTable(ts)
    ensures Below(ts, 350_000_000) == Below(ts, 200_000_000) + 200_000_000 * Bought(ts, 50)
    ensures Worth(ts, 350_000_000) == Worth(ts, 200_000_000) + 50 * Bought(ts, 50)
  {
    if ts.More? {
      UpToFifty(ts.rest);
    }
  }

  lemma {:induction false} UpToHundred(ts: Tiers)
    requires AllOnTable(ts)
    ensures Cost(ts) == Below(ts, 350_000_000) + 350_000_000 * Bought(ts, 100)
    ensures Sol(ts) == Worth(ts, 350_000_000) + 100 * Bought(ts, 100)
  {
    if ts.More? {
      UpToHundred(ts.rest);
    }
  }

  ghost predicate Spent(t: Tally, three: int, ten: int, twentyFive: int, fifty: int, hundred: int, cost: int) {
    && three == 10_000_000 * t.ones
    && ten == three + 25_000_000 * t.threes
    && twentyFive == ten + 60_000_000 * t.tens
    && fifty == twentyFive + 120_000_000 * t.twentyFives
    && hundred == fifty + 200_000_000 * t.fifties
    && cost == hundred + 350_000_000 * t.hundreds
  }

  lemma SpentIs(t: Tally, three: int, ten: int, twentyFive: int, fifty: int, hundred: int, cost: int)
    requires Spent(t, three, ten, twentyFive, fifty, hundred, cost)
    ensures BelowTen(t) == ten && BelowTwentyFive(t) == twentyFive && BelowFifty(t) == fifty
    ensures BelowHundred(t) == hundred && TallyCost(t) == cost
  {
  }

  ghost predicate Got(t: Tally, three: int, ten: int, twentyFive: int, fifty: int, hundred: int, sol: int) {
    && three == t.ones
    && ten == three + 3 * t.threes
    && twentyFive == ten + 10 * t.tens
    && fifty == twentyFive + 25 * t.twentyFives
    && hundred == fifty + 50 * t.fifties
    && sol == hundred + 100 * t.hundreds
  }

  lemma GotIs(t: Tally, three: int, ten: int, twentyFive: int, fifty: int, hundred: int, sol: int)
    requires Got(t, three, ten, twentyFive, fifty, hundred, sol)
    ensures TallySol(t) == sol
  {
  }

  ghost predicate Tallies(ts: Tiers, t: Tally) {
    && Spent(t, Below(ts, 25_000_000), Below(ts, 60_000_000), Below(ts, 120_000_000), Below(ts, 200_000_000),
             Below(ts, 350_000_000), Cost(ts))
    && Got(t, Worth(ts, 25_000_000), Worth(ts, 60_000_000), Worth(ts, 120_000_000), Worth(ts, 200_000_000),
           Worth(ts, 350_000_000), Sol(ts))
  }

  lemma Tallied(ts: Tiers) returns (t: Tally)
    requires AllOnTable(ts)
    ensures t.ones == Bought(ts, 1) && Tallies(ts, t)
  {
    UpToOne(ts);
    UpToThree(ts);
    UpToTen(ts);
    UpToTwentyFive(ts);
    UpToFifty(ts);
    UpToHundred(ts);
    t := Tally(Bought(ts, 1), Bought(ts, 3), Bought(ts, 10), Bought(ts, 25), Bought(ts, 50), Bought(ts, 100));
  }

  // Unstacked purchases are credited as bought.

  lemma {:induction false} BestAddsHundreds(x: nat, n: nat)
    ensures Best(x + 350_000_000 * n) == Best(x) + 100 * n
  {
    if n > 0 {
      BestAddsHundreds(x, n - 1);
    }
  }

  lemma UnstackedBelowTen(t: Tally)
    requires t.ones != 5 && BelowTen(t) < 60_000_000
    ensures Best(BelowTen(t)) == SolBelowTen(t)
  {
    BestUnderTen(BelowTen(t));
  }

  lemma UnstackedBelowTwentyFive(t: Tally)
    requires t.ones != 5 && BelowTen(t) < 60_000_000 && BelowTwentyFive(t) < 120_000_000
    ensures Best(BelowTwentyFive(t)) == SolBelowTwentyFive(t)
  {
    UnstackedBelowTen(t);
    if t.tens == 1 {
      assert Best(BelowTwentyFive(t)) == 10 + Best(BelowTen(t));
    }
  }

  lemma UnstackedBelowFifty(t: Tally)
    requires t.ones != 5 && BelowTen(t) < 60_000_000 && BelowTwentyFive(t) < 120_000_000 && BelowFifty(t) < 200_000_000
    ensures Best(BelowFifty(t)) == SolBelowFifty(t)
  {
    UnstackedBelowTwentyFive(t);
    if t.twentyFives == 1 {
      assert Best(BelowFifty(t)) == 25 + Best(BelowTwentyFive(t));
    }
  }

  lemma UnstackedBelowHundred(t: Tally)
    requires Loose(t)
    ensures Best(BelowHundred(t)) == SolBelowHundred(t)
  {
    UnstackedBelowFifty(t);
    if t.fifties == 1 {
      assert Best(BelowHundred(t)) == 50 + Best(BelowFifty(t));
    }
  }

  lemma UnstackedIsBest(t: Tally)
    requires Loose(t)
    ensures Best(TallyCost(t)) == TallySol(t)
  {
    UnstackedBelowHundred(t);
    BestAddsHundreds(BelowHundred(t), t.hundreds);
  }

  // Stacked ones are credited with more: some of them already are, and the rest add at
  // least what they credit.

  lemma {:induction false} BestAddsOnes(x: nat, n: nat)
    ensures Adds(x, 10_000_000 * n, n)
  {
    if n > 0 {
      BestAddsOnes(x, n - 1);
      FairAlways(x + 10_000_000 * n, 10_000_000, 1);
      assert x + 10_000_000 * n - 10_000_000 == x + 10_000_000 * (n - 1);
    }
  }

  lemma {:induction false} BestAddsThrees(x: nat, n: nat)
    ensures Adds(x, 25_000_000 * n, 3 * n)
  {
    if n > 0 {
      BestAddsThrees(x, n - 1);
      FairAlways(x + 25_000_000 * n, 25_000_000, 3);
      assert x + 25_000_000 * n - 25_000_000 == x + 25_000_000 * (n - 1);
    }
  }

  lemma {:induction false} BestAddsTens(x: nat, n: nat)
    ensures Adds(x, 60_000_000 * n, 10 * n)
  {
    if n > 0 {
      BestAddsTens(x, n - 1);
      FairAlways(x + 60_000_000 * n, 60_000_000, 10);
      assert x + 60_000_000 * n - 60_000_000 == x + 60_000_000 * (n - 1);
    }
  }

  lemma {:induction false} BestAddsTwentyFives(x: nat, n: nat)
    ensures Adds(x, 120_000_000 * n, 25 * n)
  {
    if n > 0 {
      BestAddsTwentyFives(x, n - 1);
      FairAlways(x + 120_000_000 * n, 120_000_000, 25);
      assert x + 120_000_000 * n - 120_000_000 == x + 120_000_000 * (n - 1);
    }
  }

  lemma {:induction false} BestAddsFifties(x: nat, n: nat)
    ensures Adds(x, 200_000_000 * n, 50 * n)
  {
    if n > 0 {
      BestAddsFifties(x, n - 1);
      FairAlways(x + 200_000_000 * n, 200_000_000, 50);
      assert x + 200_000_000 * n - 200_000_000 == x + 200_000_000 * (n - 1);
    }
  }

  /** What `cost` more to spend adds to the credit, at least. */
  ghost predicate Adds(x: nat, cost: nat, sol: nat) {
    Best(x + cost) >= Best(x) + sol
  }

  lemma AddsOn(x: nat, cost: nat, sol: nat, more: nat, moreSol: nat)
    requires Adds(x, cost, sol) && Adds(x + cost, more, moreSol)
    ensures Adds(x, cost + more, sol + moreSol)
  {
    assert x + cost + more == x + (cost + more);
  }

  lemma AndOnes(x: nat, cost: nat, sol: nat, n: nat)
    requires Adds(x, cost, sol)
    ensures Adds(x, cost + 10_000_000 * n, sol + n)
  {
    BestAddsOnes(x + cost, n);
    AddsOn(x, cost, sol, 10_000_000 * n, n);
  }

  lemma AndThrees(x: nat, cost: nat, sol: nat, n: nat)
    requires Adds(x, cost, sol)
    ensures Adds(x, cost + 25_000_000 * n, sol + 3 * n)
  {
    BestAddsThrees(x + cost, n);
    AddsOn(x, cost, sol, 25_000_000 * n, 3 * n);
  }

  lemma AndTens(x: nat, cost: nat, sol: nat, n: nat)
    requires Adds(x, cost, sol)
    ensures Adds(x, cost + 60_000_000 * n, sol + 10 * n)
  {
    BestAddsTens(x + cost, n);
    AddsOn(x, cost, sol, 60_000_000 * n, 10 * n);
  }

  lemma AndTwentyFives(x: nat, cost: nat, sol: nat, n: nat)
    requires Adds(x, cost, sol)
    ensures Adds(x, cost + 120_000_000 * n, sol + 25 * n)
  {
    BestAddsTwentyFives(x + cost, n);
    AddsOn(x, cost, sol, 120_000_000 * n, 25 * n);
  }

  lemma AndFifties(x: nat, cost: nat, sol: nat, n: nat)
    requires Adds(x, cost, sol)
    ensures Adds(x, cost + 200_000_000 * n, sol + 50 * n)
  {
    BestAddsFifties(x + cost, n);
    AddsOn(x, cost, sol, 200_000_000 * n, 50 * n);
  }

  lemma AndHundreds(x: nat, cost: nat, sol: nat, n: nat)
    requires Adds(x, cost, sol)
    ensures Adds(x, cost + 350_000_000 * n, sol + 100 * n)
  {
    BestAddsHundreds(x + cost, n);
    AddsOn(x, cost, sol, 350_000_000 * n, 100 * n);
  }

  lemma BelowTenAdds(x: nat, t: Tally)
    ensures Adds(x, BelowTen(t), SolBelowTen(t))
  {
    AndOnes(x, 0, 0, t.ones);
    AndThrees(x, 10_000_000 * t.ones, t.ones, t.threes);
  }

  lemma BelowFiftyAdds(x: nat, t: Tally)
    ensures Adds(x, BelowFifty(t), SolBelowFifty(t))
  {
    BelowTenAdds(x, t);
    AndTens(x, BelowTen(t), SolBelowTen(t), t.tens);
    AndTwentyFives(x, BelowTwentyFive(t), SolBelowTwentyFive(t), t.twentyFives);
  }

  lemma TallyAdds(x: nat, t: Tally)
    ensures Adds(x, TallyCost(t), TallySol(t))
  {
    BelowFiftyAdds(x, t);
    AndFifties(x, BelowFifty(t), SolBelowFifty(t), t.fifties);
    AndHundreds(x, BelowHundred(t), SolBelowHundred(t), t.hundreds);
  }

  /** `t` is `x` lamports' worth, bought for `sol`, and more beside it. */
  predicate Splits(t: Tally, x: nat, sol: nat, more: Tally) {
    TallyCost(t) == x + TallyCost(more) && TallySol(t) == sol + TallySol(more)
  }

  /** Purchases that are credited with too much stay so with more beside them. */
  lemma DriftStays(t: Tally, x: nat, sol: nat, more: Tally)
    requires Splits(t, x, sol, more) && Best(x) > sol
    ensures Best(TallyCost(t)) > TallySol(t)
  {
    TallyAdds(x, more);
  }

  /** From the price of ten on, a payment is credited above the rate of the cheap tiers. */
  lemma {:induction false} AboveTheCheapRate(x: nat)
    requires x >= 60_000_000
    ensures Best(x) * 25_000_000 > 3 * x
  {
    if x >= 410_000_000 {
      AboveTheCheapRate(x - 350_000_000);
    } else if 60_000_000 <= x < 120_000_000 {
      BestUnderTen(x - 60_000_000);
    }
  }

  lemma AboveTheCheapTiers(ones: nat, threes: nat, best: nat)
    requires best * 25_000_000 > 3 * (10_000_000 * ones + 25_000_000 * threes)
    ensures best > ones + 3 * threes
  {
  }

  lemma StackedBelowTen(t: Tally)
    requires BelowTen(t) >= 60_000_000
    ensures Best(TallyCost(t)) > TallySol(t)
  {
    AboveTheCheapRate(BelowTen(t));
    AboveTheCheapTiers(t.ones, t.threes, Best(BelowTen(t)));
    SplitCheap(t);
    DriftStays(t, BelowTen(t), SolBelowTen(t), t.(ones := 0, threes := 0));
  }

  lemma SplitCheap(t: Tally)
    ensures Splits(t, BelowTen(t), SolBelowTen(t), t.(ones := 0, threes := 0))
  {
  }

  lemma StackedBundles()
    ensures Best(50_000_000) == 6 && Best(120_000_000) == 25 && Best(240_000_000) == 54 && Best(400_000_000) == 106
  {
    BestUnderTen(40_000_000);
    BestUnderTen(50_000_000);
  }

  lemma FiveSingles(t: Tally)
    requires t.ones == 5
    ensures Best(TallyCost(t)) > TallySol(t)
  {
    StackedBundles();
    SplitSingles(t);
    DriftStays(t, 50_000_000, 5, t.(ones := 0));
  }

  lemma SplitSingles(t: Tally)
    requires t.ones == 5
    ensures Splits(t, 50_000_000, 5, t.(ones := 0))
  {
  }

  lemma TwoTens(t: Tally)
    requires t.tens >= 2
    ensures Best(TallyCost(t)) > TallySol(t)
  {
    StackedBundles();
    SplitTens(t);
    DriftStays(t, 120_000_000, 20, t.(tens := t.tens - 2));
  }

  lemma SplitTens(t: Tally)
    requires t.tens >= 2
    ensures Splits(t, 120_000_000, 20, t.(tens := t.tens - 2))
  {
  }

  lemma TwoTwentyFives(t: Tally)
    requires t.twentyFives >= 2
    ensures Best(TallyCost(t)) > TallySol(t)
  {
    StackedBundles();
    SplitTwentyFives(t);
    DriftStays(t, 240_000_000, 50, t.(twentyFives := t.twentyFives - 2));
  }

  lemma SplitTwentyFives(t: Tally)
    requires t.twentyFives >= 2
    ensures Splits(t, 240_000_000, 50, t.(twentyFives := t.twentyFives - 2))
  {
  }

  lemma TwoFifties(t: Tally)
    requires t.fifties >= 2
    ensures Best(TallyCost(t)) > TallySol(t)
  {
    StackedBundles();
    SplitFifties(t);
    DriftStays(t, 400_000_000, 100, t.(fifties := t.fifties - 2));
  }

  lemma SplitFifties(t: Tally)
    requires t.fifties >= 2
    ensures Splits(t, 400_000_000, 100, t.(fifties := t.fifties - 2))
  {
  }

  lemma StackedBelowFifty(t: Tally)
    requires t.twentyFives == 1 && t.tens == 1 && BelowTen(t) < 60_000_000 && BelowFifty(t) >= 200_000_000
    ensures Best(TallyCost(t)) > TallySol(t)
  {
    var more := Tally(0, 0, 0, 0, t.fifties, t.hundreds);
    FiftyForThirtyFive(t.ones, t.threes);
    assert Splits(t, BelowFifty(t), SolBelowFifty(t), more);
    DriftStays(t, BelowFifty(t), SolBelowFifty(t), more);
  }

  /** A ten, a twenty-five and cheaper ones for twenty million or more are a fifty. */
  lemma FiftyForThirtyFive(ones: nat, threes: nat)
    requires 20_000_000 <= 10_000_000 * ones + 25_000_000 * threes < 60_000_000
    ensures Best(180_000_000 + 10_000_000 * ones + 25_000_000 * threes) > ones + 3 * threes + 35
  {
  }

  lemma StackedBelowHundred(t: Tally)
    requires t.fifties == 1 && BelowFifty(t) < 200_000_000 && BelowHundred(t) >= 350_000_000
    ensures Best(TallyCost(t)) > TallySol(t)
  {
    var more := Tally(0, 0, 0, 0, 0, t.hundreds);
    UnderFiftyRate(t);
    assert Splits(t, BelowHundred(t), SolBelowHundred(t), more);
    DriftStays(t, BelowHundred(t), SolBelowHundred(t), more);
  }

  lemma UnderFiftyRate(t: Tally)
    requires BelowFifty(t) < 200_000_000
    ensures SolBelowFifty(t) <= 41
  {
  }

  lemma StackedIsNotBest(t: Tally)
    requires !Loose(t)
    ensures Best(TallyCost(t)) > TallySol(t)
  {
    if BelowTen(t) >= 60_000_000 {
      StackedBelowTen(t);
    } else if t.ones == 5 {
      FiveSingles(t);
    } else if t.tens >= 2 {
      TwoTens(t);
    } else if t.twentyFives >= 2 {
      TwoTwentyFives(t);
    } else if t.fifties >= 2 {
      TwoFifties(t);
    } else if BelowFifty(t) >= 200_000_000 {
      StackedBelowFifty(t);
    } else {
      StackedBelowHundred(t);
    }
  }

  lemma TallyIsBestIff(t: Tally)
    ensures Best(TallyCost(t)) >= TallySol(t)
    ensures Best(TallyCost(t)) == TallySol(t) <==> Loose(t)
  {
    if Loose(t) {
      UnstackedIsBest(t);
    } else {
      StackedIsNotBest(t);
    }
  }

  lemma PurchasesAreBestIff(purchases: Tiers)
    requires AllOnTable(purchases) && Cost(purchases) >= 0
    ensures Best(Cost(purchases)) >= Sol(purchases)
    ensures Best(Cost(purchases)) == Sol(purchases) <==> Unstacked(purchases)
  {
    var t := Tallied(purchases);
    SpentIs(t, Below(purchases, 25_000_000), Below(purchases, 60_000_000), Below(purchases, 120_000_000),
            Below(purchases, 200_000_000), Below(purchases, 350_000_000), Cost(purchases));
    GotIs(t, Worth(purchases, 25_000_000), Worth(purchases, 60_000_000), Worth(purchases, 120_000_000),
          Worth(purchases, 200_000_000), Worth(purchases, 350_000_000), Sol(purchases));
    TallyIsBestIff(t);
  }

  /** So much credited for so much bought: never less, the same just when the purchases do
      not stack, and otherwise a whole SOL or more too much. */
  predicate CreditedUnless(stacked: bool, bought: int, credited: int) {
    && bought <= credited
    && (stacked <==> bought < credited)
    && (stacked ==> bought + LAMPORTS_PER_SOL <= credited)
  }

  lemma InLamports(sol: nat, best: nat, stacked: bool)
    requires sol <= best && (best == sol <==> !stacked)
    ensures CreditedUnless(stacked, sol * LAMPORTS_PER_SOL, best * LAMPORTS_PER_SOL)
  {
  }

  lemma BestIsCredit(purchases: Tiers)
    requires Cost(purchases) >= 0
    ensures Credit(Buys(BY_PRICE, Cost(purchases))) == Best(Cost(purchases)) * LAMPORTS_PER_SOL
    ensures Credit(purchases) == Sol(purchases) * LAMPORTS_PER_SOL
  {
    BuysBest(Cost(purchases));
    CreditIsSol(Buys(BY_PRICE, Cost(purchases)));
    CreditIsSol(purchases);
  }

  /** A sum of purchases is credited with what they were, one by one, if and only if they do
      not stack into a dearer tier. */
  lemma CreditedAsBoughtIff(purchases: Tiers)
    requires ListsAll(BY_PRICE, purchases)
    ensures Cost(purchases) >= 0
    ensures CreditedUnless(!Unstacked(purchases), Credit(purchases), Credit(Buys(BY_PRICE, Cost(purchases))))
  {
    CostIsPositive(BY_PRICE, purchases);
    ListedAreOnTable(purchases);
    PurchasesAreBestIff(purchases);
    BestIsCredit(purchases);
    InLamports(Sol(purchases), Best(Cost(purchases)), !Unstacked(purchases));
  }

  /** A single purchase never stacks. */
  lemma OnePurchaseIsUnstacked(t: Tier)
    requires OnTable(t)
    ensures Unstacked(More(t, Nothing))
  {
    var none: Tiers := Nothing;
    assert Bought(none, 1) == 0 && Below(none, 60_000_000) == 0 && Below(none, 120_000_000) == 0;
    assert Below(none, 200_000_000) == 0 && Below(none, 350_000_000) == 0;
  }

  function Singles(n: nat): Tiers {
    if n == 0 then Nothing else More(ONE, Singles(n - 1))
  }

  /** Six singles do, into a ten. */
  lemma StackedPurchasesDrift()
    ensures ListsAll(BY_PRICE, Singles(6)) && Cost(Singles(6)) == TEN.price
    ensures Credit(Singles(6)) == 6 * LAMPORTS_PER_SOL
    ensures Credit(Buys(BY_PRICE, Cost(Singles(6)))) == 10 * LAMPORTS_PER_SOL
  {
    ExactBranchIsRedundant(TEN);
    SinglesAre(6);
  }

  lemma {:induction false} SinglesAre(n: nat)
    ensures ListsAll(BY_PRICE, Singles(n)) && Cost(Singles(n)) == 10_000_000 * n && Credit(Singles(n)) == n * LAMPORTS_PER_SOL
  {
    if n > 0 {
      SinglesAre(n - 1);
      OneIsListed();
    }
  }

  lemma OneIsListed()
    ensures Lists(BY_PRICE, ONE)
  {
    var upToTen := BY_PRICE.rest.rest.rest;
    assert Lists(upToTen.rest.rest, ONE);
    assert Lists(upToTen, ONE);
    assert Lists(BY_PRICE.rest, ONE);
  }
}
