/** The fill engine: pure quotes over a pool, rounded in the pool's favour, and the
    reason no sequence of fills against it can be farmed. */
module FillEngine {
  import opened Fixed
  import opened Trading
  import opened Wrappers

  datatype Source = PumpfunCurve | Pumpswap | Raydium

  datatype Pool = Pool(sol: nat, tokens: nat, deliverable: nat, feeBps: nat, source: Source)

  datatype QuoteError = NonPositiveSize | EmptyReserves | NoLiquidity | Dust

  /** `quote.sol` leaves the balance on a buy and arrives on a sell, fee included. */
  datatype Priced = Priced(quote: Quote, fee: nat, impactBps: nat, partial: bool)

  /** How far the average price sits from spot, by cross-multiplication. */
  function ImpactBps(sol: nat, tokens: nat, pool: Pool): nat {
    if tokens == 0 || sol == 0 || pool.sol == 0 then 0
    else
      NonZeroProduct(tokens, pool.sol);
      var ratio := MulDivFloor(sol * pool.tokens, BPS_DENOMINATOR, tokens * pool.sol);
      if ratio < BPS_DENOMINATOR then BPS_DENOMINATOR - ratio else ratio - BPS_DENOMINATOR
  }

  lemma NonZeroProduct(a: nat, b: nat)
    requires a > 0 && b > 0
    ensures a * b > 0
  {
  }

  /** What is left of a buy once the fee is off. */
  function AfterFee(pool: Pool, solIn: nat): nat
    requires solIn > 0
  {
    MulDivFloor(solIn - 1, BPS_DENOMINATOR, BPS_DENOMINATOR + pool.feeBps)
  }

  /** The tokens the curve alone would give for `sol` after the fee. */
  function CurveOut(pool: Pool, sol: nat): nat
    requires pool.sol > 0
  {
    MulDivFloor(sol, pool.tokens, pool.sol + sol)
  }

  function QuoteBuy(pool: Pool, solIn: int): Result<Priced, QuoteError> {
    if solIn <= 0 then Err(NonPositiveSize)
    else if pool.sol == 0 || pool.tokens == 0 then Err(EmptyReserves)
    else
      var afterFee := AfterFee(pool, solIn);
      if afterFee == 0 then Err(Dust)
      else
        var uncapped := CurveOut(pool, afterFee);
        AfterFeeIsLess(pool, solIn);
        if uncapped == 0 then Err(Dust)
        else if pool.deliverable == 0 then Err(NoLiquidity)
        else if uncapped <= pool.deliverable then
          Ok(Priced(Quote(Buy, solIn, uncapped), solIn - afterFee, ImpactBps(afterFee, uncapped, pool), false))
        else
          CurveOutIsLess(pool, afterFee);
          var tokens := pool.deliverable;
          var required := MulDivCeil(tokens, pool.sol, pool.tokens - tokens);
          var gross := MulDivCeil(required, BPS_DENOMINATOR + pool.feeBps, BPS_DENOMINATOR) + 1;
          var spent := if gross > solIn then solIn else gross;
          var spentAfterFee := if required > afterFee then afterFee else required;
          GrossCoversNet(required, pool.feeBps);
          Ok(Priced(Quote(Buy, spent, tokens), spent - spentAfterFee, ImpactBps(spentAfterFee, tokens, pool), true))
  }

  function QuoteSell(pool: Pool, tokensIn: int): Result<Priced, QuoteError> {
    if tokensIn <= 0 then Err(NonPositiveSize)
    else if pool.sol == 0 || pool.tokens == 0 then Err(EmptyReserves)
    else
      var gross := MulDivFloor(tokensIn, pool.sol, pool.tokens + tokensIn);
      if gross == 0 then Err(Dust)
      else
        var fee := MulDivCeil(gross, pool.feeBps, BPS_DENOMINATOR);
        if gross <= fee then Err(Dust)
        else Ok(Priced(Quote(Sell, gross - fee, tokensIn), fee, ImpactBps(gross, tokensIn, pool), false))
  }

  function PriceOf(pool: Pool, side: Side, size: int): Result<Priced, QuoteError> {
    if side == Buy then QuoteBuy(pool, size) else QuoteSell(pool, size)
  }

  /** The pool after a fill: fees leave it. */
  function ApplyQuote(pool: Pool, p: Priced): Pool {
    if p.quote.side == Buy then
      var into := if p.quote.sol > p.fee then p.quote.sol - p.fee else 0;
      pool.(sol := pool.sol + into,
            tokens := Less(pool.tokens, p.quote.tokens), deliverable := Less(pool.deliverable, p.quote.tokens))
    else
      pool.(sol := Less(pool.sol, p.quote.sol + p.fee),
            tokens := pool.tokens + p.quote.tokens, deliverable := pool.deliverable + p.quote.tokens)
  }

  function Less(a: nat, b: nat): nat {
    if a > b then a - b else 0
  }

  // ----- Bounds the quotes obey -----

  lemma AfterFeeIsLess(pool: Pool, solIn: nat)
    requires solIn > 0
    ensures AfterFee(pool, solIn) < solIn
  {
    var a := AfterFee(pool, solIn);
    var d := BPS_DENOMINATOR + pool.feeBps;
    assert (solIn - 1) * BPS_DENOMINATOR <= (solIn - 1) * d;
    QuotientAtMost(a, d, solIn - 1);
  }

  lemma CurveOutIsLess(pool: Pool, sol: nat)
    requires pool.sol > 0 && pool.tokens > 0
    ensures CurveOut(pool, sol) < pool.tokens
  {
    ShareIsLess(pool.sol, pool.tokens, sol, CurveOut(pool, sol));
  }

  lemma ShareIsLess(reserve: nat, of: nat, added: nat, out: nat)
    requires reserve > 0 && of > 0 && out * (reserve + added) <= added * of
    ensures out < of
  {
    assert (of - out) * (reserve + added) == of * reserve + added * of - out * (reserve + added);
    NonZeroProduct(of, reserve);
    assert (of - out) * (reserve + added) > 0;
  }

  lemma GrossCoversNet(net: nat, feeBps: nat)
    ensures MulDivCeil(net, BPS_DENOMINATOR + feeBps, BPS_DENOMINATOR) >= net
  {
    var gross := MulDivCeil(net, BPS_DENOMINATOR + feeBps, BPS_DENOMINATOR);
    assert net * (BPS_DENOMINATOR + feeBps) == net * BPS_DENOMINATOR + net * feeBps;
    QuotientAtMost(net, BPS_DENOMINATOR, gross);
  }

  /** What a buy may do: it takes some of the tokens there are, charges a fee, and adds
      to the curve at least what those tokens cost on it. */
  predicate SoundBuy(pool: Pool, p: Priced) {
    && p.quote.side == Buy
    && 1 <= p.fee < p.quote.sol
    && 0 < p.quote.tokens <= pool.deliverable && p.quote.tokens < pool.tokens
    && (p.quote.sol - p.fee) * (pool.tokens - p.quote.tokens) >= p.quote.tokens * pool.sol
  }

  /** What a sell may do: it takes off the curve, fee included, at most what it owes. */
  predicate SoundSell(pool: Pool, p: Priced) {
    && p.quote.side == Sell && p.quote.tokens > 0 && p.quote.sol > 0
    && (p.quote.sol + p.fee) * (pool.tokens + p.quote.tokens) <= p.quote.tokens * pool.sol
    && p.quote.sol + p.fee < pool.sol && pool.tokens > 0
  }

  predicate Sound(pool: Pool, p: Priced) {
    SoundBuy(pool, p) || SoundSell(pool, p)
  }

  lemma BuyIsSound(pool: Pool, solIn: int)
    requires QuoteBuy(pool, solIn).Ok?
    ensures SoundBuy(pool, QuoteBuy(pool, solIn).value) && QuoteBuy(pool, solIn).value.quote.sol <= solIn
  {
    var p := QuoteBuy(pool, solIn).value;
    var a := AfterFee(pool, solIn);
    AfterFeeIsLess(pool, solIn);
    CurveOutIsLess(pool, a);
    if p.partial {
      var t := pool.deliverable;
      var required := MulDivCeil(t, pool.sol, pool.tokens - t);
      GrossCoversNet(required, pool.feeBps);
      NonZeroProduct(t, pool.sol);
      CappedByOffer(pool, a, CurveOut(pool, a), t);
    } else {
      ShareTaken(pool.sol, pool.tokens, a, CurveOut(pool, a));
    }
  }

  lemma ShareTaken(reserve: nat, of: nat, added: nat, out: nat)
    requires out * (reserve + added) <= added * of
    ensures added * (of - out) >= out * reserve
  {
    assert added * (of - out) == added * of - added * out;
    assert out * (reserve + added) == out * reserve + out * added;
  }

  lemma CappedByOffer(pool: Pool, a: nat, u: nat, t: nat)
    requires u * (pool.sol + a) <= a * pool.tokens && t < u
    ensures a * (pool.tokens - t) >= t * pool.sol
  {
    assert u * (pool.sol + a) == t * (pool.sol + a) + (u - t) * (pool.sol + a);
    ShareTaken(pool.sol, pool.tokens, a, t);
  }

  lemma SellIsSound(pool: Pool, tokensIn: int)
    requires QuoteSell(pool, tokensIn).Ok?
    ensures SoundSell(pool, QuoteSell(pool, tokensIn).value)
    ensures QuoteSell(pool, tokensIn).value.quote.tokens == tokensIn
  {
    var gross := MulDivFloor(tokensIn, pool.sol, pool.tokens + tokensIn);
    ShareIsLess(pool.tokens, pool.sol, tokensIn, gross);
  }

  /** Every quote is sound, and whoever could afford the size asked for can pay it. */
  lemma QuotesAreSound(pool: Pool, side: Side, size: int)
    requires PriceOf(pool, side, size).Ok?
    ensures Sound(pool, PriceOf(pool, side, size).value)
    ensures var q := PriceOf(pool, side, size).value.quote;
      q.side == side && (if side == Buy then q.sol <= size else q.tokens == size)
  {
    if side == Buy {
      BuyIsSound(pool, size);
    } else {
      SellIsSound(pool, size);
    }
  }

  // ----- And no more than that -----

  /** The most of a buy that leaves its fee and one lamport. */
  predicate IsNet(pool: Pool, solIn: int, n: nat) {
    n * (BPS_DENOMINATOR + pool.feeBps) <= (solIn - 1) * BPS_DENOMINATOR < (n + 1) * (BPS_DENOMINATOR + pool.feeBps)
  }

  /** There is one such amount. */
  lemma NetIsOne(pool: Pool, solIn: nat, n: nat)
    requires solIn > 0 && IsNet(pool, solIn, n)
    ensures AfterFee(pool, solIn) == n
  {
    var d := BPS_DENOMINATOR + pool.feeBps;
    QuotientBelow(n, d, AfterFee(pool, solIn) + 1);
    QuotientBelow(AfterFee(pool, solIn), d, n + 1);
  }

  /** So much SOL on the curve buys so many tokens, and not one more. */
  predicate Buys(pool: Pool, into: nat, tokens: nat) {
    into * (pool.tokens - tokens) >= tokens * pool.sol && into * (pool.tokens - tokens - 1) < (tokens + 1) * pool.sol
  }

  lemma CurveBuys(pool: Pool, into: nat)
    requires pool.sol > 0 && pool.tokens > 0
    ensures Buys(pool, into, CurveOut(pool, into))
  {
    var t := CurveOut(pool, into);
    ShareTaken(pool.sol, pool.tokens, into, t);
    ShareLeft(pool.sol, pool.tokens, into, t);
  }

  lemma ShareLeft(reserve: nat, of: nat, added: nat, out: nat)
    requires added * of < (out + 1) * (reserve + added)
    ensures added * (of - out - 1) < (out + 1) * reserve
  {
    assert added * (of - out - 1) == added * of - added * (out + 1);
    assert (out + 1) * (reserve + added) == (out + 1) * reserve + (out + 1) * added;
  }

  /** More than `tokens` are bought exactly by what pays for one more. */
  lemma BuysMoreIff(pool: Pool, into: nat, tokens: nat)
    requires pool.sol > 0 && pool.tokens > 0
    ensures CurveOut(pool, into) > tokens <==> into * (pool.tokens - tokens - 1) >= (tokens + 1) * pool.sol
  {
    var t, d := CurveOut(pool, into), pool.sol + into;
    assert into * (pool.tokens - tokens - 1) == into * pool.tokens - into * (tokens + 1);
    assert (tokens + 1) * d == (tokens + 1) * pool.sol + into * (tokens + 1);
    if t > tokens {
      ProductUpTo(tokens + 1, t, d);
    } else {
      ProductUpTo(t + 1, tokens + 1, d);
    }
  }

  /** Exactly which buys are quoted, and why the others are not: whatever is left after the
      fee must pay for a token, and there must be one to hand over. */
  lemma BuyQuotedIff(pool: Pool, solIn: int, n: nat)
    requires solIn > 0 ==> IsNet(pool, solIn, n)
    ensures var q := QuoteBuy(pool, solIn);
      var empty := pool.sol == 0 || pool.tokens == 0;
      var pays := n * (pool.tokens - 1) >= pool.sol;
      && (q == Err(NonPositiveSize) <==> solIn <= 0)
      && (q == Err(EmptyReserves) <==> solIn > 0 && empty)
      && (q == Err(Dust) <==> solIn > 0 && !empty && !pays)
      && (q == Err(NoLiquidity) <==> solIn > 0 && !empty && pays && pool.deliverable == 0)
      && (q.Ok? <==> solIn > 0 && !empty && pays && pool.deliverable > 0)
  {
    if solIn > 0 && pool.sol > 0 && pool.tokens > 0 {
      NetIsOne(pool, solIn, n);
      BuysMoreIff(pool, n, 0);
      assert n == 0 ==> n * (pool.tokens - 1) < pool.sol;
    }
    hide AfterFee, CurveOut, ImpactBps;
  }

  /** A buy that the venue can fill takes the whole size, puts all of it but the fee on the
      curve, and delivers all that the curve allows; one that it cannot takes what there
      is, and only because more was paid for. */
  lemma BuyDeliversAll(pool: Pool, solIn: int, n: nat)
    requires QuoteBuy(pool, solIn).Ok? && IsNet(pool, solIn, n)
    ensures var p := QuoteBuy(pool, solIn).value;
      && (p.partial <==> n * (pool.tokens - pool.deliverable - 1) >= (pool.deliverable + 1) * pool.sol)
      && (p.partial ==> p.quote.tokens == pool.deliverable)
      && (!p.partial ==>
            && p.quote.sol == solIn && p.fee == solIn - n
            && n * (pool.tokens - p.quote.tokens) >= p.quote.tokens * pool.sol
            && n * (pool.tokens - p.quote.tokens - 1) < (p.quote.tokens + 1) * pool.sol)
  {
    NetIsOne(pool, solIn, n);
    BuysMoreIff(pool, n, pool.deliverable);
    CurveBuys(pool, n);
    hide AfterFee, CurveOut, ImpactBps;
  }

  lemma CappedBuyIs(pool: Pool, solIn: int)
    requires QuoteBuy(pool, solIn).Ok? && QuoteBuy(pool, solIn).value.partial
    ensures var p, t := QuoteBuy(pool, solIn).value, pool.deliverable;
      && 0 < t < pool.tokens
      && var required := MulDivCeil(t, pool.sol, pool.tokens - t);
         var gross := MulDivCeil(required, BPS_DENOMINATOR + pool.feeBps, BPS_DENOMINATOR) + 1;
         && p.quote.sol - p.fee <= required && p.quote.sol - p.fee <= AfterFee(pool, solIn)
         && p.quote.sol <= gross && (p.quote.sol == gross || p.quote.sol == solIn)
  {
    AfterFeeIsLess(pool, solIn);
    CurveOutIsLess(pool, AfterFee(pool, solIn));
    hide AfterFee, CurveOut, ImpactBps, MulDivCeil;
    GrossCoversNet(MulDivCeil(pool.deliverable, pool.sol, pool.tokens - pool.deliverable), pool.feeBps);
  }

  lemma GrossIsLeast(required: nat, n: nat, c: nat, feeBps: nat)
    requires required <= n && c * BPS_DENOMINATOR >= n * feeBps
    ensures MulDivCeil(required, BPS_DENOMINATOR + feeBps, BPS_DENOMINATOR) <= n + c
  {
    var d := BPS_DENOMINATOR + feeBps;
    ProductUpTo(required, n, d);
    assert n * d == n * BPS_DENOMINATOR + n * feeBps;
    LeastCovers(required * d, BPS_DENOMINATOR, MulDivCeil(required, d, BPS_DENOMINATOR), n + c);
  }

  /** A capped buy puts no more on the curve than its tokens cost there, and is charged at
      most that, the fee on it and a lamport: what was offered beyond is not taken. `n` pays
      for the tokens, and `c` for the fee on `n`. */
  lemma CappedBuyPaysTheLeast(pool: Pool, solIn: int, n: nat, c: nat)
    requires QuoteBuy(pool, solIn).Ok? && QuoteBuy(pool, solIn).value.partial
    requires n * (pool.tokens - pool.deliverable) >= pool.deliverable * pool.sol && c * BPS_DENOMINATOR >= n * pool.feeBps
    ensures var p := QuoteBuy(pool, solIn).value;
      p.quote.sol - p.fee <= n && p.quote.sol <= n + c + 1
  {
    hide QuoteBuy;
    CappedBuyIs(pool, solIn);
    var t := pool.deliverable;
    var required := MulDivCeil(t, pool.sol, pool.tokens - t);
    LeastCovers(t * pool.sol, pool.tokens - t, required, n);
    hide MulDivCeil;
    GrossIsLeast(required, n, c, pool.feeBps);
  }

  /** A quotient rounded up is the least that covers. */
  lemma LeastCovers(x: nat, d: nat, q: nat, n: nat)
    requires d > 0 && (q > 0 ==> (q - 1) * d < x) && n * d >= x
    ensures q <= n
  {
    if q > 0 {
      QuotientBelow(q - 1, d, n);
    }
  }

  /** And whether capped or not, a buy is charged the whole fee and a lamport. */
  lemma BuyPaysItsFee(pool: Pool, solIn: int)
    requires QuoteBuy(pool, solIn).Ok?
    ensures var p := QuoteBuy(pool, solIn).value;
      (p.quote.sol - p.fee) * pool.feeBps <= (p.fee - 1) * 10_000
  {
    var p, a := QuoteBuy(pool, solIn).value, AfterFee(pool, solIn);
    AfterFeeIsLess(pool, solIn);
    if p.partial {
      hide QuoteBuy, AfterFee;
      CappedBuyIs(pool, solIn);
      var required := MulDivCeil(pool.deliverable, pool.sol, pool.tokens - pool.deliverable);
      if p.quote.sol == solIn {
        FeeFits(pool.feeBps, p.quote.sol - p.fee, a, solIn);
      } else {
        FeeFits(pool.feeBps, p.quote.sol - p.fee, required, p.quote.sol);
      }
    } else {
      FeeFits(pool.feeBps, a, a, solIn);
    }
  }

  lemma FeeFits(feeBps: nat, into: nat, most: nat, spent: int)
    requires into <= most && most * (BPS_DENOMINATOR + feeBps) <= (spent - 1) * BPS_DENOMINATOR
    ensures into * feeBps <= (spent - into - 1) * BPS_DENOMINATOR
  {
    ProductUpTo(into, most, BPS_DENOMINATOR + feeBps);
    assert into * (BPS_DENOMINATOR + feeBps) == into * BPS_DENOMINATOR + into * feeBps;
  }

  /** A sell pays out all that the curve owes for its tokens, less a fee rounded up. */
  lemma SellPaysAll(pool: Pool, tokensIn: int)
    requires QuoteSell(pool, tokensIn).Ok?
    ensures var p := QuoteSell(pool, tokensIn).value;
      var gross := p.quote.sol + p.fee;
      && gross * (pool.tokens + tokensIn) <= tokensIn * pool.sol < (gross + 1) * (pool.tokens + tokensIn)
      && p.fee * BPS_DENOMINATOR >= gross * pool.feeBps && (p.fee > 0 ==> (p.fee - 1) * BPS_DENOMINATOR < gross * pool.feeBps)
      && !p.partial
  {
    hide ImpactBps;
  }

  /** Exactly which sells are quoted: the curve must owe more than the fee on it. `g` is
      what it owes. */
  lemma SellQuotedIff(pool: Pool, tokensIn: int, g: nat)
    requires tokensIn > 0 ==> g * (pool.tokens + tokensIn) <= tokensIn * pool.sol < (g + 1) * (pool.tokens + tokensIn)
    ensures var q := QuoteSell(pool, tokensIn);
      var empty := pool.sol == 0 || pool.tokens == 0;
      && (q == Err(NonPositiveSize) <==> tokensIn <= 0)
      && (q == Err(EmptyReserves) <==> tokensIn > 0 && empty)
      && (q == Err(Dust) <==> tokensIn > 0 && !empty && g * pool.feeBps > (g - 1) * BPS_DENOMINATOR)
      && (q.Ok? <==> tokensIn > 0 && !empty && g * pool.feeBps <= (g - 1) * BPS_DENOMINATOR)
  {
    if tokensIn > 0 && pool.sol > 0 && pool.tokens > 0 {
      var gross, d := MulDivFloor(tokensIn, pool.sol, pool.tokens + tokensIn), pool.tokens + tokensIn;
      QuotientBelow(g, d, gross + 1);
      QuotientBelow(gross, d, g + 1);
      var fee := MulDivCeil(g, pool.feeBps, BPS_DENOMINATOR);
      if g > fee {
        ProductUpTo(fee, g - 1, BPS_DENOMINATOR);
      } else if g > 0 {
        ProductUpTo(g - 1, fee - 1, BPS_DENOMINATOR);
      }
    }
    hide ImpactBps, MulDivFloor, MulDivCeil;
  }

  /** The impact is how far a quote's price lies beyond spot, in whole basis points: above
      it for a buy, below it for a sell. */
  lemma ImpactIsBeyondSpot(pool: Pool, side: Side, size: int)
    requires PriceOf(pool, side, size).Ok?
    ensures var p := PriceOf(pool, side, size).value;
      var spot, bps := p.quote.tokens * pool.sol, BPS_DENOMINATOR;
      if side == Buy then
        spot * (bps + p.impactBps) <= (p.quote.sol - p.fee) * pool.tokens * bps < spot * (bps + p.impactBps + 1)
      else
        spot * (bps - p.impactBps) <= (p.quote.sol + p.fee) * pool.tokens * bps < spot * (bps - p.impactBps + 1)
  {
    QuotesAreSound(pool, side, size);
    var p := PriceOf(pool, side, size).value;
    var onCurve := if side == Buy then p.quote.sol - p.fee else p.quote.sol + p.fee;
    assert p.impactBps == ImpactBps(onCurve, p.quote.tokens, pool) by {
      hide ImpactBps, CurveOut, AfterFee;
    }
    hide PriceOf;
    ImpactOf(pool, onCurve, p.quote.tokens, side);
  }

  lemma ImpactOf(pool: Pool, onCurve: nat, tokens: nat, side: Side)
    requires onCurve > 0 && tokens > 0 && pool.sol > 0
    requires if side == Buy then onCurve * (pool.tokens - tokens) >= tokens * pool.sol
             else onCurve * (pool.tokens + tokens) <= tokens * pool.sol
    ensures var spot, bps, impact := tokens * pool.sol, BPS_DENOMINATOR, ImpactBps(onCurve, tokens, pool);
      if side == Buy then spot * (bps + impact) <= onCurve * pool.tokens * bps < spot * (bps + impact + 1)
      else spot * (bps - impact) <= onCurve * pool.tokens * bps < spot * (bps - impact + 1)
  {
    var spot := tokens * pool.sol;
    NonZeroProduct(tokens, pool.sol);
    NonZeroProduct(onCurve, tokens);
    var ratio := MulDivFloor(onCurve * pool.tokens, BPS_DENOMINATOR, spot);
    if side == Buy {
      assert onCurve * (pool.tokens - tokens) == onCurve * pool.tokens - onCurve * tokens;
      QuotientBelow(BPS_DENOMINATOR, spot, ratio + 1);
    } else {
      assert onCurve * (pool.tokens + tokens) == onCurve * pool.tokens + onCurve * tokens;
      QuotientBelow(ratio, spot, BPS_DENOMINATOR);
    }
    hide MulDivFloor;
  }

  // ----- The product of the reserves -----

  lemma ApplyGrowsTheProduct(pool: Pool, p: Priced)
    requires Sound(pool, p)
    ensures var after := ApplyQuote(pool, p);
      && after.sol * after.tokens >= pool.sol * pool.tokens
      && after.tokens == pool.tokens - TokenDelta(p.quote)
      && after.sol == pool.sol - SolDelta(p.quote) - p.fee
      && after.deliverable == pool.deliverable - TokenDelta(p.quote)
      && after.tokens > 0
  {
    var t := p.quote.tokens;
    if p.quote.side == Buy {
      var into := p.quote.sol - p.fee;
      assert (pool.sol + into) * (pool.tokens - t)
          == pool.sol * pool.tokens - t * pool.sol + into * (pool.tokens - t);
    } else {
      var gross := p.quote.sol + p.fee;
      assert (pool.sol - gross) * (pool.tokens + t)
          == pool.sol * pool.tokens + t * pool.sol - gross * (pool.tokens + t);
    }
  }

  // ----- Nobody farms a pool -----

  datatype Order = Order(side: Side, size: int)

  /** A pool, what one trader has, and the fees and buys so far. Amounts may run
      negative here: the claim does not lean on the trader's limits. */
  datatype Session = Session(pool: Pool, sol: int, tokens: int, fees: nat, buys: nat)

  /** One order against the pool it finds; an order that cannot be quoted does nothing. */
  function Fill(s: Session, o: Order): Session {
    match PriceOf(s.pool, o.side, o.size)
    case Err(_) => s
    case Ok(p) => Session(ApplyQuote(s.pool, p), s.sol + SolDelta(p.quote), s.tokens + TokenDelta(p.quote),
                          s.fees + p.fee, s.buys + if o.side == Buy then 1 else 0)
  }

  function Fills(s: Session, os: seq<Order>): Session {
    if os == [] then s else Fill(Fills(s, os[..|os| - 1]), os[|os| - 1])
  }

  lemma {:induction false} FillsConserve(s: Session, os: seq<Order>)
    requires s.pool.tokens > 0 && s.fees >= s.buys
    ensures var t := Fills(s, os);
      && t.pool.sol + t.sol + t.fees == s.pool.sol + s.sol + s.fees
      && t.pool.tokens + t.tokens == s.pool.tokens + s.tokens
      && t.pool.sol * t.pool.tokens >= s.pool.sol * s.pool.tokens
      && t.pool.tokens > 0 && t.fees - s.fees >= t.buys - s.buys
  {
    if os != [] {
      var front, o := os[..|os| - 1], os[|os| - 1];
      FillsConserve(s, front);
      var t := Fills(s, front);
      if PriceOf(t.pool, o.side, o.size).Ok? {
        QuotesAreSound(t.pool, o.side, o.size);
        ApplyGrowsTheProduct(t.pool, PriceOf(t.pool, o.side, o.size).value);
      }
    }
  }

  /** However a trader splits, orders and repeats buys and sells against a pool that only
      they move, ending on the tokens they began with leaves them no richer, and at
      least one lamport poorer for every buy. */
  lemma NoSessionFarmsAPool(s: Session, os: seq<Order>)
    requires s.pool.tokens > 0 && s.fees == s.buys == 0
    requires Fills(s, os).tokens == s.tokens
    ensures Fills(s, os).sol <= s.sol - Fills(s, os).buys
  {
    FillsConserve(s, os);
    var t := Fills(s, os);
    QuotientAtMost(s.pool.sol, s.pool.tokens, t.pool.sol);
  }

  /** The practice account never moves the market it is quoted from, so the other way to
      farm it would be to keep trading against one unchanged reading. At that reading's
      spot price no fill adds value: a buy pays at least spot and a sell gets at most it. */
  function AtSpot(pool: Pool, sol: int, tokens: int): int {
    sol * pool.tokens + tokens * pool.sol
  }

  function PaperFill(pool: Pool, held: (int, int), o: Order): (int, int) {
    match PriceOf(pool, o.side, o.size)
    case Err(_) => held
    case Ok(p) => (held.0 + SolDelta(p.quote), held.1 + TokenDelta(p.quote))
  }

  function PaperFills(pool: Pool, held: (int, int), os: seq<Order>): (int, int) {
    if os == [] then held else PaperFill(pool, PaperFills(pool, held, os[..|os| - 1]), os[|os| - 1])
  }

  /** A buy costs more than its tokens are worth at spot, a sell brings less. */
  lemma SoundLosesAtSpot(pool: Pool, p: Priced)
    requires Sound(pool, p)
    ensures SolDelta(p.quote) * pool.tokens + TokenDelta(p.quote) * pool.sol < 0
  {
    var t, sol := p.quote.tokens, p.quote.sol;
    if p.quote.side == Buy {
      var into := sol - p.fee;
      assert into * (pool.tokens - t) == into * pool.tokens - into * t;
      assert sol * pool.tokens == into * pool.tokens + p.fee * pool.tokens;
      NonZeroProduct(p.fee, pool.tokens);
    } else {
      assert (sol + p.fee) * (pool.tokens + t) == sol * pool.tokens + sol * t + p.fee * (pool.tokens + t);
      NonZeroProduct(sol, t);
    }
  }

  lemma PaperFillLosesAtSpot(pool: Pool, held: (int, int), o: Order)
    ensures var after := PaperFill(pool, held, o);
      AtSpot(pool, after.0, after.1) <= AtSpot(pool, held.0, held.1)
      && (AtSpot(pool, after.0, after.1) == AtSpot(pool, held.0, held.1) ==> PriceOf(pool, o.side, o.size).Err?)
  {
    if PriceOf(pool, o.side, o.size).Ok? {
      var p := PriceOf(pool, o.side, o.size).value;
      QuotesAreSound(pool, o.side, o.size);
      SoundLosesAtSpot(pool, p);
      AtSpotAdds(pool, held.0, held.1, SolDelta(p.quote), TokenDelta(p.quote));
    }
  }

  lemma AtSpotAdds(pool: Pool, sol: int, tokens: int, dSol: int, dTokens: int)
    ensures AtSpot(pool, sol + dSol, tokens + dTokens)
         == AtSpot(pool, sol, tokens) + (dSol * pool.tokens + dTokens * pool.sol)
  {
    assert (sol + dSol) * pool.tokens == sol * pool.tokens + dSol * pool.tokens;
    assert (tokens + dTokens) * pool.sol == tokens * pool.sol + dTokens * pool.sol;
  }

  lemma {:induction false} NoReadingIsFarmed(pool: Pool, held: (int, int), os: seq<Order>)
    ensures var after := PaperFills(pool, held, os);
      && AtSpot(pool, after.0, after.1) <= AtSpot(pool, held.0, held.1)
      && (after.1 == held.1 && pool.tokens > 0 ==> after.0 <= held.0)
  {
    var after := PaperFills(pool, held, os);
    if os != [] {
      NoReadingIsFarmed(pool, held, os[..|os| - 1]);
      PaperFillLosesAtSpot(pool, PaperFills(pool, held, os[..|os| - 1]), os[|os| - 1]);
    }
    AtSpotAdds(pool, held.0, held.1, after.0 - held.0, after.1 - held.1);
  }

  // ----- From click to fill -----

  datatype Rules = Rules(slippageBps: nat, maxImpactBps: nat, allowPartial: bool)

  datatype Reject = VenueChanged | Unquotable(error: QuoteError) | PriceImpact | PartialNotAllowed | Slippage

  /** How much worse the received amount is than the expected one, in basis points. */
  function ShortfallBps(expected: nat, actual: nat): int {
    if expected == 0 then 0
    else if actual > expected then 0 - MulDivFloor(actual - expected, BPS_DENOMINATOR, expected)
    else MulDivFloor(expected - actual, BPS_DENOMINATOR, expected)
  }

  function Received(q: Quote): nat {
    if q.side == Buy then q.tokens else q.sol
  }

  /** An order within the tolerance receives, in tokens for a buy and in SOL for a sell, no
      less than it allows of what was shown at the click. */
  predicate WithinTolerance(shown: Quote, got: Quote, slippageBps: nat) {
    var (before, after) := if shown.side == Buy then (shown.tokens, got.tokens) else (shown.sol, got.sol);
    (before - after) * 10_000 < (slippageBps + 1) * before
  }

  predicate Beyond(quoted: Result<Priced, QuoteError>, rules: Rules) {
    quoted.Ok? && quoted.value.impactBps > rules.maxImpactBps
  }

  function SimulateFill(atClick: Pool, atFill: Pool, side: Side, size: int, rules: Rules): Result<Priced, Reject> {
    if atClick.source != atFill.source then Err(VenueChanged)
    else match PriceOf(atClick, side, size)
      case Err(e) => Err(Unquotable(e))
      case Ok(expected) =>
        if expected.impactBps > rules.maxImpactBps then Err(PriceImpact)
        else match PriceOf(atFill, side, size)
          case Err(e) => Err(Unquotable(e))
          case Ok(actual) =>
            if actual.impactBps > rules.maxImpactBps then Err(PriceImpact)
            else if actual.partial && !rules.allowPartial then Err(PartialNotAllowed)
            else if ShortfallBps(Received(expected.quote), Received(actual.quote)) > rules.slippageBps then Err(Slippage)
            else Ok(actual)
  }

  /** A fill is the quote of the second reading, within the impact limit at both readings
      and within the slippage tolerance of what was shown at the click. */
  lemma FilledAtTheSecondReading(atClick: Pool, atFill: Pool, side: Side, size: int, rules: Rules)
    requires SimulateFill(atClick, atFill, side, size, rules).Ok?
    ensures var p := SimulateFill(atClick, atFill, side, size, rules).value;
      && PriceOf(atFill, side, size) == Ok(p) && Sound(atFill, p) && p.impactBps <= rules.maxImpactBps
      && PriceOf(atClick, side, size).Ok?
      && var shown := PriceOf(atClick, side, size).value;
         shown.impactBps <= rules.maxImpactBps && WithinTolerance(shown.quote, p.quote, rules.slippageBps)
  {
    QuotesAreSound(atFill, side, size);
    QuotesAreSound(atClick, side, size);
    var shown, p := PriceOf(atClick, side, size).value, PriceOf(atFill, side, size).value;
    ShortfallBounds(Received(shown.quote), Received(p.quote), rules.slippageBps);
  }

  lemma ProductUpTo(a: nat, b: nat, n: nat)
    requires a <= b
    ensures a * n <= b * n
  {
    assert b * n == a * n + (b - a) * n;
  }

  /** A shortfall is within a tolerance exactly when less than a basis point more than it is
      missing; more than was shown always is. */
  lemma ShortfallBounds(expected: nat, actual: nat, tolerance: nat)
    requires expected > 0
    ensures ShortfallBps(expected, actual) <= tolerance <==> (expected - actual) * BPS_DENOMINATOR < (tolerance + 1) * expected
  {
    NonZeroProduct(tolerance + 1, expected);
    if actual <= expected {
      var short := MulDivFloor(expected - actual, BPS_DENOMINATOR, expected);
      if short <= tolerance {
        ProductUpTo(short + 1, tolerance + 1, expected);
      } else {
        ProductUpTo(tolerance + 1, short, expected);
      }
    }
  }

  /** Exactly which orders are filled, and why the others are not. */
  lemma FilledIff(atClick: Pool, atFill: Pool, side: Side, size: int, rules: Rules)
    ensures var shown, p, r := PriceOf(atClick, side, size), PriceOf(atFill, side, size), SimulateFill(atClick, atFill, side, size, rules);
      var sameVenue := atClick.source == atFill.source;
      var close := sameVenue && shown.Ok? && p.Ok? && !Beyond(shown, rules) && !Beyond(p, rules);
      var whole := close && (p.value.partial ==> rules.allowPartial);
      && (r == Err(VenueChanged) <==> !sameVenue)
      && (r.Err? && r.error.Unquotable? ==> r.error.error == if shown.Err? then shown.error else p.error)
      && (r == Err(PriceImpact) <==> sameVenue && (Beyond(shown, rules) || (shown.Ok? && Beyond(p, rules))))
      && (r == Err(PartialNotAllowed) <==> close && !whole)
      && (r == Err(Slippage) <==> whole && !WithinTolerance(shown.value.quote, p.value.quote, rules.slippageBps))
      && (r.Ok? <==> whole && WithinTolerance(shown.value.quote, p.value.quote, rules.slippageBps))
  {
    var shown, p := PriceOf(atClick, side, size), PriceOf(atFill, side, size);
    if shown.Ok? && p.Ok? {
      QuotesAreSound(atClick, side, size);
      QuotesAreSound(atFill, side, size);
      ShortfallBounds(Received(shown.value.quote), Received(p.value.quote), rules.slippageBps);
    }
    hide PriceOf, ShortfallBps;
  }
}
