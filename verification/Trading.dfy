/** Applying one fill to a balance and a position. */
module Trading {
  import opened Fixed
  import opened Wrappers

  datatype Side = Buy | Sell

  /** What a fill moves, in lamports and token base units. */
  datatype Quote = Quote(side: Side, sol: nat, tokens: nat)

  datatype Position = Position(tokens: nat, cost: nat, pnl: int)

  /** SOL put into the tokens still held, less what selling has returned. */
  function NetCost(p: Position): int {
    p.cost - p.pnl
  }

  const EMPTY := Position(0, 0, 0)

  datatype AccountState = AccountState(sol: nat, position: Option<Position>)

  datatype TradingError = NotEnoughSol | NotEnoughTokens

  datatype Applied = Applied(sol: nat, position: Position, realized: int, closed: bool)

  function ApplyFill(state: AccountState, quote: Quote): Result<Applied, TradingError> {
    if quote.side == Buy then ApplyBuy(state, quote) else ApplySell(state, quote)
  }

  function ApplyBuy(state: AccountState, quote: Quote): Result<Applied, TradingError> {
    if quote.sol > state.sol then Err(NotEnoughSol)
    else
      var held := state.position.GetOr(EMPTY);
      Ok(Applied(state.sol - quote.sol,
                 Position(held.tokens + quote.tokens, held.cost + quote.sol, held.pnl), 0, false))
  }

  function ApplySell(state: AccountState, quote: Quote): Result<Applied, TradingError> {
    if state.position.None? then Err(NotEnoughTokens)
    else
      var held := state.position.value;
      if quote.tokens > held.tokens then Err(NotEnoughTokens)
      else
        var closing := quote.tokens == held.tokens;
        var soldCost := if closing then held.cost else SliceOfBasis(held, quote.tokens);
        var realized := quote.sol - soldCost;
        Ok(Applied(state.sol + quote.sol,
                   Position(held.tokens - quote.tokens, held.cost - soldCost, held.pnl + realized), realized, closing))
  }

  /** The cost of part of a position, floored: rounding dust stays in the basis. */
  function SliceOfBasis(held: Position, tokens: nat): (slice: nat)
    requires tokens < held.tokens
    ensures slice <= held.cost
  {
    var slice := MulDivFloor(held.cost, tokens, held.tokens);
    assert held.cost * tokens <= held.cost * held.tokens;
    QuotientAtMost(slice, held.tokens, held.cost);
    slice
  }

  function SolDelta(quote: Quote): int {
    if quote.side == Buy then 0 - quote.sol else quote.sol
  }

  function TokenDelta(quote: Quote): int {
    if quote.side == Buy then quote.tokens else 0 - quote.tokens
  }

  /** A fill is applied exactly when it can be afforded, moves the quoted amounts and
      nothing else, and keeps the books: what is invested changes by the SOL spent. */
  lemma FillMovesItsAmounts(state: AccountState, quote: Quote)
    ensures ApplyFill(state, quote) == Err(NotEnoughSol) <==> quote.side == Buy && quote.sol > state.sol
    ensures ApplyFill(state, quote) == Err(NotEnoughTokens) <==>
      quote.side == Sell && (state.position.None? || quote.tokens > state.position.value.tokens)
    ensures ApplyFill(state, quote).Ok? ==>
      var held, a := state.position.GetOr(EMPTY), ApplyFill(state, quote).value;
      && a.sol == state.sol + SolDelta(quote)
      && a.position.tokens == held.tokens + TokenDelta(quote)
      && NetCost(a.position) == NetCost(held) - SolDelta(quote)
      && a.position.pnl == held.pnl + a.realized && (quote.side == Buy ==> a.realized == 0)
      && (a.closed <==> quote.side == Sell && a.position.tokens == 0)
      && (a.closed ==> a.position.cost == 0)
  {
  }

  /** A partial sale never books more profit than its slice of the basis allows, and
      what is kept carries at least its proportional cost. */
  lemma RoundingStaysInTheBasis(held: Position, tokens: nat, sol: nat)
    requires 0 < tokens < held.tokens
    ensures var a := ApplySell(AccountState(0, Some(held)), Quote(Sell, sol, tokens)).value;
      && (sol - a.realized) * held.tokens <= held.cost * tokens < (sol - a.realized + 1) * held.tokens
      && a.position.cost * held.tokens >= held.cost * a.position.tokens
  {
    var slice := SliceOfBasis(held, tokens);
    assert held.cost * (held.tokens - tokens) == held.cost * held.tokens - held.cost * tokens;
    assert (held.cost - slice) * held.tokens == held.cost * held.tokens - slice * held.tokens;
  }
}
