/** One fill on one account, as a sequence of steps that any number of orders can
    interleave: read, wait, read again, quote, and write only if nothing moved. */
module ExecuteTrade {
  import opened Trading
  import opened Wrappers
  import FillEngine

  type Mint = string
  type Pool = FillEngine.Pool

  // ----- The account's rows -----

  /** A row of the trade log. The last four fields are provenance rather than columns: the
      order it answers, and the balance and position its quote was applied to. */
  datatype Trade = Trade(
    sequence: nat, mint: Mint, quote: Quote,
    order: nat, againstSol: nat, againstTokens: nat, againstInvested: int
  )

  /** `open` holds the positions with no closing time, `closed` the others. */
  datatype Ledger = Ledger(sol: nat, open: map<Mint, Position>, closed: seq<(Mint, Position)>, trades: seq<Trade>)

  function Held(l: Ledger, mint: Mint): nat {
    if mint in l.open then l.open[mint].tokens else 0
  }

  function LastSequence(trades: seq<Trade>): nat {
    if trades == [] then 0
    else
      var last, rest := trades[|trades| - 1].sequence, LastSequence(trades[..|trades| - 1]);
      if last > rest then last else rest
  }

  /** The position row as it stands. */
  function Row(l: Ledger, mint: Mint): Position {
    if mint in l.open then l.open[mint] else EMPTY
  }

  /** What `recordTrade` is asked to write, and the state it must still find. What was
      invested in the position when it was read is provenance: nothing compares it. */
  datatype Write = Write(
    order: nat, mint: Mint, quote: Quote,
    expectedSol: nat, expectedTokens: Option<nat>, readInvested: int,
    newBalance: nat, position: Position, closed: bool
  )

  function Entry(l: Ledger, w: Write): Trade {
    Trade(LastSequence(l.trades) + 1, w.mint, w.quote, w.order, w.expectedSol, w.expectedTokens.GetOr(0), w.readInvested)
  }

  /** The compare of compare-and-swap: the balance, then the holding. */
  predicate Unmoved(l: Ledger, w: Write) {
    l.sol == w.expectedSol && Held(l, w.mint) == w.expectedTokens.GetOr(0)
  }

  /** One database transaction: everything, or nothing. */
  function Commit(l: Ledger, w: Write): Ledger {
    if !Unmoved(l, w) then l
    else if w.closed then
      Ledger(w.newBalance, l.open - {w.mint}, l.closed + [(w.mint, w.position)], l.trades + [Entry(l, w)])
    else
      Ledger(w.newBalance, l.open[w.mint := w.position], l.closed, l.trades + [Entry(l, w)])
  }

  // ----- Orders -----

  /** `seenSol` is the balance on the account row the caller passed in, however old. */
  datatype Request = Request(mint: Mint, side: Side, size: int, seenSol: nat)

  datatype Reason = NoLiquidity | InsufficientSol | InsufficientTokens | Refused | Raced

  datatype Outcome =
    | Filled(click: Pool, fill: Pool, trade: Trade)
    | Rejected(reason: Reason)
    | Suspended | Degraded | Unlisted | Threw

  /** Where an order stands between two awaits. */
  datatype Phase =
    | Placed
    | Listed
    | Clicked(click: Pool)
    | Waited(click: Pool)
    | Repriced(click: Pool, fill: Pool)
    | Writing(click: Pool, fill: Pool, write: Write)
    | Done(outcome: Outcome)

  datatype Order = Order(request: Request, phase: Phase)

  datatype World = World(ledger: Ledger, orders: seq<Order>)

  /** Any fill engine: given both readings, the amounts moved, or a refusal. */
  type Engine = (Pool, Pool, Side, int) -> Option<(nat, nat)>

  datatype Reading = Unreadable | NoPool | Read(pool: Pool)

  datatype Event =
    | Place(request: Request)
    | Checked(id: nat, suspended: bool)
    | ReadAtClick(id: nat, reading: Reading)
    | LatencyPassed(id: nat)
    | ReadAtFill(id: nat, reading: Reading)
    | PositionRead(id: nat)
    | Recorded(id: nat)
    | Broke(id: nat)
    | Credited(amount: nat)

  /** An order moves at its own await; a purchase may be credited at any time. */
  predicate Enabled(w: World, e: Event) {
    e.Place? || e.Credited? || (e.id < |w.orders| &&
      var phase := w.orders[e.id].phase;
      match e
      case Checked(_, _) => phase.Placed?
      case ReadAtClick(_, _) => phase.Listed?
      case LatencyPassed(_) => phase.Clicked?
      case ReadAtFill(_, _) => phase.Waited?
      case PositionRead(_) => phase.Repriced?
      case Recorded(_) => phase.Writing?
      case Broke(_) => !phase.Done?)
  }

  /** The write that applies a quote to the rows as they were read. */
  function Prepared(l: Ledger, seenSol: nat, id: nat, mint: Mint, quote: Quote): Result<Write, TradingError> {
    var position := if mint in l.open then Some(l.open[mint]) else None;
    match ApplyFill(AccountState(seenSol, position), quote)
    case Err(e) => Err(e)
    case Ok(applied) =>
      Ok(Write(id, mint, quote,
               seenSol, if position.Some? then Some(position.value.tokens) else None, NetCost(Row(l, mint)),
               applied.sol, applied.position, applied.closed))
  }

  /** From the position read to the write request, with no await between: check the
      size, simulate, apply. */
  function Quoted(engine: Engine, l: Ledger, id: nat, r: Request, click: Pool, fill: Pool): Phase {
    if r.side == Buy && r.size > r.seenSol then Done(Rejected(InsufficientSol))
    else if r.side == Sell && r.size > Held(l, r.mint) then Done(Rejected(InsufficientTokens))
    else
      var amounts := engine(click, fill, r.side, r.size);
      if amounts.None? then Done(Rejected(Refused))
      else
        match Prepared(l, r.seenSol, id, r.mint, Quote(r.side, amounts.value.0, amounts.value.1))
        case Err(NotEnoughSol) => Done(Rejected(InsufficientSol))
        case Err(NotEnoughTokens) => Done(Rejected(InsufficientTokens))
        case Ok(write) => Writing(click, fill, write)
  }

  function Moved(w: World, id: nat, phase: Phase): World
    requires id < |w.orders|
  {
    w.(orders := w.orders[id := w.orders[id].(phase := phase)])
  }

  function Step(engine: Engine, w: World, e: Event): World
    requires Enabled(w, e)
  {
    match e
    case Place(request) => w.(orders := w.orders + [Order(request, Placed)])
    case Checked(id, suspended) => Moved(w, id, if suspended then Done(Suspended) else Listed)
    case ReadAtClick(id, reading) =>
      Moved(w, id, match reading
                   case Unreadable => Done(Degraded)
                   case NoPool => Done(Unlisted)
                   case Read(pool) => Clicked(pool))
    case LatencyPassed(id) => Moved(w, id, Waited(w.orders[id].phase.click))
    case ReadAtFill(id, reading) =>
      Moved(w, id, match reading
                   case Unreadable => Done(Degraded)
                   case NoPool => Done(Rejected(NoLiquidity))
                   case Read(pool) => Repriced(w.orders[id].phase.click, pool))
    case PositionRead(id) =>
      var o := w.orders[id];
      Moved(w, id, Quoted(engine, w.ledger, id, o.request, o.phase.click, o.phase.fill))
    case Recorded(id) =>
      var p := w.orders[id].phase;
      Moved(w.(ledger := Commit(w.ledger, p.write)), id,
            Done(if Unmoved(w.ledger, p.write) then Filled(p.click, p.fill, Entry(w.ledger, p.write))
                 else Rejected(Raced)))
    case Broke(id) => Moved(w, id, Done(Threw))
    case Credited(amount) => w.(ledger := w.ledger.(sol := w.ledger.sol + amount))
  }

  /** The account's rows and the orders in flight, changed in place. */
  class Desk {
    var sol: nat
    var open: map<Mint, Position>
    var closed: seq<(Mint, Position)>
    var trades: seq<Trade>
    var orders: seq<Order>

    ghost function Rows(): Ledger
      reads this
    {
      Ledger(sol, open, closed, trades)
    }

    ghost function Model(): World
      reads this
    {
      World(Rows(), orders)
    }

    constructor (balance: nat)
      ensures Model() == World(Ledger(balance, map[], [], []), [])
    {
      sol, open, closed, trades, orders := balance, map[], [], [], [];
    }

    /** The transaction: the trade row goes in first, and comes out again if the balance
        or the holding has moved. */
    method RecordTrade(w: Write) returns (sequence: Option<nat>)
      modifies this`sol, this`open, this`closed, this`trades
      ensures Rows() == Commit(old(Rows()), w)
      ensures sequence == if old(Unmoved(Rows(), w)) then Some(old(Entry(Rows(), w)).sequence) else None
    {
      var before := trades;
      var next := LastSequence(trades) + 1;
      trades := trades + [Trade(next, w.mint, w.quote, w.order, w.expectedSol, w.expectedTokens.GetOr(0), w.readInvested)];

      if sol != w.expectedSol {
        trades := before;
        return None;
      }
      var balance := sol;
      sol := w.newBalance;

      if w.mint in open {
        if open[w.mint].tokens != w.expectedTokens.GetOr(0) {
          sol, trades := balance, before;
          return None;
        }
      } else if w.expectedTokens.Some? && w.expectedTokens.value != 0 {
        sol, trades := balance, before;
        return None;
      }
      if w.closed {
        open := open - {w.mint};
        closed := closed + [(w.mint, w.position)];
      } else {
        open := open[w.mint := w.position];
      }
      return Some(next);
    }

    /** Resume one order at its await, with whatever the awaited call came back with. */
    method Resume(engine: Engine, e: Event)
      requires !e.Credited? && Enabled(Model(), e)
      modifies this
      ensures Model() == Step(engine, old(Model()), e)
    {
      if e.Place? {
        orders := orders + [Order(e.request, Placed)];
        return;
      }
      var order := orders[e.id];
      var next: Phase;
      match e {
        case Checked(_, suspended) =>
          next := if suspended then Done(Suspended) else Listed;
        case ReadAtClick(_, reading) =>
          next := if reading.Unreadable? then Done(Degraded)
                  else if reading.NoPool? then Done(Unlisted)
                  else Clicked(reading.pool);
        case LatencyPassed(_) =>
          next := Waited(order.phase.click);
        case ReadAtFill(_, reading) =>
          next := if reading.Unreadable? then Done(Degraded)
                  else if reading.NoPool? then Done(Rejected(NoLiquidity))
                  else Repriced(order.phase.click, reading.pool);
        case PositionRead(_) =>
          next := Quoted(engine, Ledger(sol, open, closed, trades), e.id, order.request, order.phase.click, order.phase.fill);
        case Recorded(_) =>
          var w := order.phase.write;
          var sequence := RecordTrade(w);
          next := if sequence.None? then Done(Rejected(Raced))
                  else Done(Filled(order.phase.click, order.phase.fill,
                                   Trade(sequence.value, w.mint, w.quote, w.order,
                                         w.expectedSol, w.expectedTokens.GetOr(0), w.readInvested)));
        case Broke(_) =>
          next := Done(Threw);
      }
      orders := orders[e.id := order.(phase := next)];
    }

    /** A purchase of practice SOL settles, in a transaction of its own. */
    method CreditPurchase(engine: Engine, amount: nat)
      modifies this`sol
      ensures Model() == Step(engine, old(Model()), Credited(amount))
    {
      sol := sol + amount;
    }
  }

  // ----- Runs -----

  predicate IsRun(engine: Engine, w: World, es: seq<Event>)
    decreases |es|, 0
  {
    es == [] ||
    (IsRun(engine, w, es[..|es| - 1]) && Enabled(Run(engine, w, es[..|es| - 1]), es[|es| - 1]))
  }

  function Run(engine: Engine, w: World, es: seq<Event>): World
    requires IsRun(engine, w, es)
    decreases |es|, 1
  {
    if es == [] then w else Step(engine, Run(engine, w, es[..|es| - 1]), es[|es| - 1])
  }

  // ----- The accounts of a run -----

  /** What changed the account, oldest innermost. */
  datatype Move = Fill(trade: Trade) | Credit(amount: nat)
  datatype Moves = Opening | Then(before: Moves, last: Move)

  function SolOf(m: Move): int {
    if m.Fill? then SolDelta(m.trade.quote) else m.amount
  }

  function SolAfter(sol: int, ms: Moves): int {
    if ms.Opening? then sol else SolAfter(sol, ms.before) + SolOf(ms.last)
  }

  predicate Fills(m: Move, mint: Mint) {
    m.Fill? && m.trade.mint == mint
  }

  function HeldAfter(tokens: int, ms: Moves, mint: Mint): int {
    if ms.Opening? then tokens
    else HeldAfter(tokens, ms.before, mint) + if Fills(ms.last, mint) then TokenDelta(ms.last.trade.quote) else 0
  }

  function FillsOf(ms: Moves): seq<Trade> {
    if ms.Opening? then []
    else if ms.last.Fill? then FillsOf(ms.before) + [ms.last.trade]
    else FillsOf(ms.before)
  }

  /** The fills that answer one order. */
  function Answers(ms: Moves, id: nat): seq<Trade> {
    if ms.Opening? then []
    else if ms.last.Fill? && ms.last.trade.order == id then Answers(ms.before, id) + [ms.last.trade]
    else Answers(ms.before, id)
  }

  /** The fill was quoted against exactly the balance and holding it replaced, and carries
      the next number. */
  predicate Follows(opening: Ledger, ms: Moves, f: Trade) {
    && f.againstSol == SolAfter(opening.sol, ms)
    && f.againstTokens == HeldAfter(Held(opening, f.mint), ms, f.mint)
    && f.sequence == LastSequence(opening.trades) + |FillsOf(ms)| + 1
  }

  predicate Serial(opening: Ledger, ms: Moves) {
    ms.Then? ==>
      && Serial(opening, ms.before)
      && (ms.last.Fill? ==> Follows(opening, ms.before, ms.last.trade))
  }

  function MoveOf(w: World, e: Event): Option<Move>
    requires Enabled(w, e)
  {
    if e.Credited? then Some(Credit(e.amount))
    else if e.Recorded? && Unmoved(w.ledger, w.orders[e.id].phase.write)
    then Some(Fill(Entry(w.ledger, w.orders[e.id].phase.write)))
    else None
  }

  function Extended(ms: Moves, m: Option<Move>): Moves {
    if m.Some? then Then(ms, m.value) else ms
  }

  /** The purchases credited and the fills committed by a run, in order. */
  function MovesOf(engine: Engine, w: World, es: seq<Event>): Moves
    requires IsRun(engine, w, es)
  {
    if es == [] then Opening
    else
      var front := es[..|es| - 1];
      Extended(MovesOf(engine, w, front), MoveOf(Run(engine, w, front), es[|es| - 1]))
  }

  ghost predicate HeldFollows(opening: Ledger, l: Ledger, ms: Moves) {
    forall m :: Held(l, m) == HeldAfter(Held(opening, m), ms, m)
  }

  ghost predicate Balanced(opening: Ledger, l: Ledger, ms: Moves) {
    && l.trades == opening.trades + FillsOf(ms)
    && LastSequence(l.trades) == LastSequence(opening.trades) + |FillsOf(ms)|
    && l.sol == SolAfter(opening.sol, ms)
    && HeldFollows(opening, l, ms)
    && Serial(opening, ms)
  }

  /** The write a sound quote leads to. */
  ghost predicate SoundWrite(w: Write) {
    && w.newBalance == w.expectedSol + SolDelta(w.quote)
    && w.position.tokens == w.expectedTokens.GetOr(0) + TokenDelta(w.quote)
    && NetCost(w.position) == w.readInvested - SolDelta(w.quote)
    && (w.closed <==> w.quote.side == Sell && w.position.tokens == 0)
  }

  lemma CommitLogs(l: Ledger, w: Write)
    requires Unmoved(l, w)
    ensures Commit(l, w).trades == l.trades + [Entry(l, w)]
    ensures LastSequence(Commit(l, w).trades) == LastSequence(l.trades) + 1
  {
    assert (l.trades + [Entry(l, w)])[..|l.trades|] == l.trades;
  }

  lemma CommitHolds(opening: Ledger, l: Ledger, ms: Moves, w: Write, f: Trade)
    requires HeldFollows(opening, l, ms) && SoundWrite(w) && Unmoved(l, w)
    requires f.mint == w.mint && f.quote == w.quote
    ensures HeldFollows(opening, Commit(l, w), Then(ms, Fill(f)))
  {
    forall m
      ensures Held(Commit(l, w), m) == HeldAfter(Held(opening, m), Then(ms, Fill(f)), m)
    {
      assert Held(l, m) == HeldAfter(Held(opening, m), ms, m);
    }
  }

  lemma CommitBalances(opening: Ledger, l: Ledger, ms: Moves, w: Write)
    requires Balanced(opening, l, ms) && SoundWrite(w) && Unmoved(l, w)
    ensures Balanced(opening, Commit(l, w), Then(ms, Fill(Entry(l, w))))
  {
    var f := Entry(l, w);
    CommitLogs(l, w);
    CommitHolds(opening, l, ms, w, f);
    CommitFollows(opening, l, ms, w);
    hide HeldFollows, LastSequence, Entry;
    assert opening.trades + FillsOf(ms) + [f] == opening.trades + (FillsOf(ms) + [f]);
  }

  lemma CommitFollows(opening: Ledger, l: Ledger, ms: Moves, w: Write)
    requires Balanced(opening, l, ms) && SoundWrite(w) && Unmoved(l, w)
    ensures Follows(opening, ms, Entry(l, w))
  {
    assert Held(l, w.mint) == HeldAfter(Held(opening, w.mint), ms, w.mint);
  }

  lemma CreditBalances(opening: Ledger, l: Ledger, ms: Moves, amount: nat)
    requires Balanced(opening, l, ms)
    ensures Balanced(opening, l.(sol := l.sol + amount), Then(ms, Credit(amount)))
  {
    var t := l.(sol := l.sol + amount);
    forall m
      ensures Held(t, m) == HeldAfter(Held(opening, m), Then(ms, Credit(amount)), m)
    {
      assert Held(l, m) == HeldAfter(Held(opening, m), ms, m);
    }
  }

  /** What the engine said about an order's two readings. */
  ghost predicate PricedBy(engine: Engine, r: Request, click: Pool, fill: Pool, quote: Quote) {
    engine(click, fill, r.side, r.size) == Some((quote.sol, quote.tokens)) && quote.side == r.side
  }

  /** A write is its own order's, sound, and priced by the engine on the order's readings. */
  ghost predicate WriteFor(engine: Engine, r: Request, click: Pool, fill: Pool, id: nat, write: Write) {
    && write.order == id && write.mint == r.mint && write.expectedSol == r.seenSol
    && SoundWrite(write) && PricedBy(engine, r, click, fill, write.quote)
  }

  predicate IsFilled(phase: Phase) {
    phase.Done? && phase.outcome.Filled?
  }

  ghost predicate FilledFor(engine: Engine, r: Request, outcome: Outcome, id: nat)
    requires outcome.Filled?
  {
    && outcome.trade.order == id && outcome.trade.mint == r.mint && outcome.trade.againstSol == r.seenSol
    && PricedBy(engine, r, outcome.click, outcome.fill, outcome.trade.quote)
  }

  /** An order's fills are the one it reports, or none. */
  ghost predicate OrderInv(engine: Engine, o: Order, ms: Moves, id: nat) {
    && Answers(ms, id) == (if IsFilled(o.phase) then [o.phase.outcome.trade] else [])
    && (IsFilled(o.phase) ==> FilledFor(engine, o.request, o.phase.outcome, id))
    && (o.phase.Writing? ==> WriteFor(engine, o.request, o.phase.click, o.phase.fill, id, o.phase.write))
  }

  ghost predicate OrdersInv(engine: Engine, orders: seq<Order>, ms: Moves) {
    && (forall id :: 0 <= id < |orders| ==> OrderInv(engine, orders[id], ms, id))
    && (forall id: nat :: id >= |orders| ==> Answers(ms, id) == [])
  }

  ghost predicate Inv(engine: Engine, opening: Ledger, w: World, ms: Moves) {
    Balanced(opening, w.ledger, ms) && OrdersInv(engine, w.orders, ms)
  }

  lemma PreparedIsSound(l: Ledger, seenSol: nat, id: nat, mint: Mint, quote: Quote)
    requires Prepared(l, seenSol, id, mint, quote).Ok?
    ensures var w := Prepared(l, seenSol, id, mint, quote).value;
      && w.order == id && w.mint == mint && w.quote == quote && w.expectedSol == seenSol
      && w.readInvested == NetCost(Row(l, mint)) && SoundWrite(w)
  {
    hide ApplyFill, NetCost, SolDelta, TokenDelta;
    FillMovesItsAmounts(AccountState(seenSol, if mint in l.open then Some(l.open[mint]) else None), quote);
  }

  lemma QuotedIsSound(engine: Engine, l: Ledger, id: nat, r: Request, click: Pool, fill: Pool)
    ensures var p := Quoted(engine, l, id, r, click, fill);
      && (p.Writing? || (p.Done? && p.outcome.Rejected?))
      && (p.Writing? ==> p.click == click && p.fill == fill && WriteFor(engine, r, click, fill, id, p.write))
  {
    hide SoundWrite, Prepared;
    var amounts := engine(click, fill, r.side, r.size);
    if amounts.Some? {
      var quote := Quote(r.side, amounts.value.0, amounts.value.1);
      if Prepared(l, r.seenSol, id, r.mint, quote).Ok? {
        PreparedIsSound(l, r.seenSol, id, r.mint, quote);
      }
    }
  }

  /** An order that moves without touching the account. */
  lemma {:induction false} MovingKeepsInv(engine: Engine, opening: Ledger, w: World, ms: Moves, id: nat, phase: Phase)
    requires Inv(engine, opening, w, ms) && id < |w.orders| && !IsFilled(w.orders[id].phase) && !IsFilled(phase)
    requires phase.Writing? ==> WriteFor(engine, w.orders[id].request, phase.click, phase.fill, id, phase.write)
    ensures Inv(engine, opening, Moved(w, id, phase), ms)
  {
    hide Balanced, WriteFor, FilledFor, Answers;
    assert OrderInv(engine, w.orders[id], ms, id);
  }

  lemma PlacingKeepsInv(engine: Engine, opening: Ledger, w: World, ms: Moves, r: Request)
    requires Inv(engine, opening, w, ms)
    ensures Inv(engine, opening, w.(orders := w.orders + [Order(r, Placed)]), ms)
  {
    hide Balanced, WriteFor, FilledFor, Answers;
  }

  lemma {:induction false} PositionReadKeepsInv(engine: Engine, opening: Ledger, w: World, ms: Moves, id: nat)
    requires Inv(engine, opening, w, ms) && Enabled(w, PositionRead(id))
    ensures Inv(engine, opening, Step(engine, w, PositionRead(id)), ms)
  {
    hide Inv, WriteFor, Quoted;
    var o := w.orders[id];
    var phase := Quoted(engine, w.ledger, id, o.request, o.phase.click, o.phase.fill);
    QuotedIsSound(engine, w.ledger, id, o.request, o.phase.click, o.phase.fill);
    MovingKeepsInv(engine, opening, w, ms, id, phase);
  }

  /** A fill joins the answers of its own order and of no other. */
  lemma {:induction false} FillKeepsOrders(engine: Engine, orders: seq<Order>, ms: Moves, id: nat, o: Order, f: Trade)
    requires OrdersInv(engine, orders, ms) && id < |orders| && !IsFilled(orders[id].phase) && f.order == id
    requires IsFilled(o.phase) && o.phase.outcome.trade == f && FilledFor(engine, o.request, o.phase.outcome, id)
    ensures OrdersInv(engine, orders[id := o], Then(ms, Fill(f)))
  {
    hide FilledFor, WriteFor;
    assert OrderInv(engine, orders[id], ms, id);
    assert Answers(Then(ms, Fill(f)), id) == [f];
    var after := orders[id := o];
    forall i | 0 <= i < |after|
      ensures OrderInv(engine, after[i], Then(ms, Fill(f)), i)
    {
      if i != id {
        assert OrderInv(engine, orders[i], ms, i) && Answers(Then(ms, Fill(f)), i) == Answers(ms, i);
      } else {
        assert after[i] == o;
      }
    }
    assert forall i: nat :: i >= |orders| ==> Answers(Then(ms, Fill(f)), i) == [];
  }

  lemma RecordedIsFilled(engine: Engine, l: Ledger, r: Request, p: Phase, id: nat)
    requires p.Writing? && WriteFor(engine, r, p.click, p.fill, id, p.write)
    ensures FilledFor(engine, r, Filled(p.click, p.fill, Entry(l, p.write)), id)
  {
    hide PricedBy, SoundWrite, LastSequence;
  }

  lemma WaitsToWrite(engine: Engine, orders: seq<Order>, ms: Moves, id: nat)
    requires OrdersInv(engine, orders, ms) && id < |orders| && orders[id].phase.Writing?
    ensures var o := orders[id];
      && WriteFor(engine, o.request, o.phase.click, o.phase.fill, id, o.phase.write)
      && SoundWrite(o.phase.write) && o.phase.write.order == id
  {
    hide Answers, SoundWrite, PricedBy, FilledFor;
    assert OrderInv(engine, orders[id], ms, id);
  }

  lemma {:induction false} RecordingKeepsInv(engine: Engine, opening: Ledger, w: World, ms: Moves, id: nat, o: Order, f: Trade)
    requires Inv(engine, opening, w, ms) && id < |w.orders| && o == w.orders[id] && o.phase.Writing?
    requires Unmoved(w.ledger, o.phase.write) && f == Entry(w.ledger, o.phase.write)
    ensures Inv(engine, opening,
                Moved(w.(ledger := Commit(w.ledger, o.phase.write)), id, Done(Filled(o.phase.click, o.phase.fill, f))),
                Then(ms, Fill(f)))
  {
    hide Balanced, OrdersInv, FilledFor, WriteFor, Commit, SoundWrite, Unmoved, LastSequence;
    WaitsToWrite(engine, w.orders, ms, id);
    RecordedIsFilled(engine, w.ledger, o.request, o.phase, id);
    CommitBalances(opening, w.ledger, ms, o.phase.write);
    FillKeepsOrders(engine, w.orders, ms, id, o.(phase := Done(Filled(o.phase.click, o.phase.fill, f))), f);
  }

  lemma {:induction false} CreditingKeepsInv(engine: Engine, opening: Ledger, w: World, ms: Moves, amount: nat)
    requires Inv(engine, opening, w, ms)
    ensures Inv(engine, opening, Step(engine, w, Credited(amount)), Then(ms, Credit(amount)))
  {
    hide Balanced, FilledFor, WriteFor;
    CreditBalances(opening, w.ledger, ms, amount);
    forall id | 0 <= id < |w.orders|
      ensures OrderInv(engine, w.orders[id], Then(ms, Credit(amount)), id)
    {
      assert OrderInv(engine, w.orders[id], ms, id);
    }
    assert forall id: nat :: id >= |w.orders| ==> Answers(Then(ms, Credit(amount)), id) == [];
    assert OrdersInv(engine, w.orders, Then(ms, Credit(amount)));
  }

  lemma RacedChangesNothing(l: Ledger, w: Write)
    requires !Unmoved(l, w)
    ensures Commit(l, w) == l
  {
  }

  lemma {:induction false} StepKeepsInv(engine: Engine, opening: Ledger, w: World, ms: Moves, e: Event)
    requires Inv(engine, opening, w, ms) && Enabled(w, e)
    ensures Inv(engine, opening, Step(engine, w, e), Extended(ms, MoveOf(w, e)))
  {
    hide Inv, Commit, Quoted, Unmoved, Entry;
    match e {
      case Place(request) => PlacingKeepsInv(engine, opening, w, ms, request);
      case PositionRead(id) => PositionReadKeepsInv(engine, opening, w, ms, id);
      case Credited(amount) => CreditingKeepsInv(engine, opening, w, ms, amount);
      case Recorded(id) =>
        if Unmoved(w.ledger, w.orders[id].phase.write) {
          RecordingKeepsInv(engine, opening, w, ms, id, w.orders[id], Entry(w.ledger, w.orders[id].phase.write));
        } else {
          RacedChangesNothing(w.ledger, w.orders[id].phase.write);
          MovingKeepsInv(engine, opening, w, ms, id, Done(Rejected(Raced)));
        }
      case _ => MovingKeepsInv(engine, opening, w, ms, e.id, Step(engine, w, e).orders[e.id].phase);
    }
  }

  lemma OpeningInv(engine: Engine, opening: Ledger)
    ensures Inv(engine, opening, World(opening, []), Opening)
  {
  }

  lemma {:induction false} RunKeepsInv(engine: Engine, opening: Ledger, es: seq<Event>)
    requires IsRun(engine, World(opening, []), es)
    ensures Inv(engine, opening, Run(engine, World(opening, []), es), MovesOf(engine, World(opening, []), es))
  {
    hide Inv, Step, MoveOf, Extended;
    if es == [] {
      OpeningInv(engine, opening);
    } else {
      var front := es[..|es| - 1];
      RunKeepsInv(engine, opening, front);
      StepKeepsInv(engine, opening, Run(engine, World(opening, []), front), MovesOf(engine, World(opening, []), front),
                   es[|es| - 1]);
    }
  }

  // ----- What an order is told -----

  /** The events that are one order's own, in order. */
  function OwnEvents(es: seq<Event>, id: nat): seq<Event> {
    if es == [] then []
    else
      var front, e := OwnEvents(es[..|es| - 1], id), es[|es| - 1];
      if !e.Place? && !e.Credited? && e.id == id then front + [e] else front
  }

  /** The requests placed, in order. */
  function Requests(es: seq<Event>): seq<Request> {
    if es == [] then []
    else
      var front, e := Requests(es[..|es| - 1]), es[|es| - 1];
      if e.Place? then front + [e.request] else front
  }

  /** What leads an order up to its click reading, and to its fill reading. */
  function Clicking(id: nat, click: Reading): seq<Event> {
    [Checked(id, false), ReadAtClick(id, click)]
  }

  function Filling(id: nat, click: Pool, fill: Reading): seq<Event> {
    [Checked(id, false), ReadAtClick(id, Read(click)), LatencyPassed(id), ReadAtFill(id, fill)]
  }

  function Trying(id: nat, click: Pool, fill: Pool): seq<Event> {
    Filling(id, click, Read(fill)) + [PositionRead(id)]
  }

  function Ending(id: nat, click: Pool, fill: Pool): seq<Event> {
    Trying(id, click, fill) + [Recorded(id)]
  }

  /** Where an order stands says exactly what it has been told, and what it ended with says
      which answer ended it. */
  ghost predicate Tells(phase: Phase, own: seq<Event>, id: nat) {
    match phase
    case Placed => own == []
    case Listed => own == [Checked(id, false)]
    case Clicked(click) => own == Clicking(id, Read(click))
    case Waited(click) => own == Clicking(id, Read(click)) + [LatencyPassed(id)]
    case Repriced(click, fill) => own == Filling(id, click, Read(fill))
    case Writing(click, fill, _) => own == Trying(id, click, fill)
    case Done(outcome) =>
      match outcome
      case Suspended => own == [Checked(id, true)]
      case Unlisted => own == Clicking(id, NoPool)
      case Degraded => own == Clicking(id, Unreadable) || exists click :: own == Filling(id, click, Unreadable)
      case Filled(click, fill, _) => own == Ending(id, click, fill)
      case Threw => own != [] && own[|own| - 1] == Broke(id)
      case Rejected(NoLiquidity) => exists click :: own == Filling(id, click, NoPool)
      case Rejected(Raced) => exists click, fill :: own == Ending(id, click, fill)
      case Rejected(_) => exists click, fill :: own == Trying(id, click, fill)
  }

  lemma OwnStepTells(engine: Engine, w: World, e: Event, own: seq<Event>)
    requires Enabled(w, e) && !e.Place? && !e.Credited? && Tells(w.orders[e.id].phase, own, e.id)
    ensures Tells(Step(engine, w, e).orders[e.id].phase, own + [e], e.id)
  {
    hide Commit, Quoted, Unmoved, Entry;
    var o := w.orders[e.id];
    if e.PositionRead? {
      QuotedIsSound(engine, w.ledger, e.id, o.request, o.phase.click, o.phase.fill);
      assert own + [e] == Trying(e.id, o.phase.click, o.phase.fill);
      QuoteRefusals(engine, w.ledger, e.id, o.request, o.phase.click, o.phase.fill);
    } else if e.Recorded? {
      assert own + [e] == Ending(e.id, o.phase.click, o.phase.fill);
    } else if e.ReadAtFill? {
      assert own + [e] == Filling(e.id, o.phase.click, e.reading);
    } else if e.ReadAtClick? {
      assert own + [e] == Clicking(e.id, e.reading);
    }
  }

  lemma QuoteRefusals(engine: Engine, l: Ledger, id: nat, r: Request, click: Pool, fill: Pool)
    ensures var p := Quoted(engine, l, id, r, click, fill);
      p.Done? ==> p.outcome in {Rejected(InsufficientSol), Rejected(InsufficientTokens), Rejected(Refused)}
  {
    hide Prepared;
  }

  lemma OtherStepsKeep(engine: Engine, w: World, e: Event, id: nat)
    requires Enabled(w, e) && id < |w.orders| && (e.Place? || e.Credited? || e.id != id)
    ensures id < |Step(engine, w, e).orders| && Step(engine, w, e).orders[id] == w.orders[id]
  {
    hide Commit, Quoted, Unmoved, Entry;
  }

  /** Over every run of any orders in any interleaving, each order stands where exactly the
      answers given to it have put it. */
  lemma {:induction false} OrdersAreTold(engine: Engine, l: Ledger, es: seq<Event>, id: nat)
    requires IsRun(engine, World(l, []), es)
    ensures var orders := Run(engine, World(l, []), es).orders;
      if id < |orders| then Tells(orders[id].phase, OwnEvents(es, id), id) else OwnEvents(es, id) == []
  {
    if es != [] {
      var front, e := es[..|es| - 1], es[|es| - 1];
      var w := Run(engine, World(l, []), front);
      OrdersAreTold(engine, l, front, id);
      hide Step, Tells;
      StepTells(engine, w, e, OwnEvents(front, id), id);
    }
  }

  lemma StepTells(engine: Engine, w: World, e: Event, own: seq<Event>, id: nat)
    requires Enabled(w, e)
    requires if id < |w.orders| then Tells(w.orders[id].phase, own, id) else own == []
    ensures var own, orders := (if !e.Place? && !e.Credited? && e.id == id then own + [e] else own), Step(engine, w, e).orders;
      if id < |orders| then Tells(orders[id].phase, own, id) else own == []
  {
    if !e.Place? && !e.Credited? && e.id == id {
      OwnStepTells(engine, w, e, own);
    } else if id < |w.orders| {
      hide Tells, Step;
      OtherStepsKeep(engine, w, e, id);
    }
    hide Commit, Quoted, Unmoved, Entry;
  }

  /** And each has the request it was placed with. */
  lemma {:induction false} OrdersAreAsPlaced(engine: Engine, l: Ledger, es: seq<Event>)
    requires IsRun(engine, World(l, []), es)
    ensures var orders := Run(engine, World(l, []), es).orders;
      |orders| == |Requests(es)| && forall id :: 0 <= id < |orders| ==> orders[id].request == Requests(es)[id]
  {
    if es != [] {
      hide Commit, Quoted, Unmoved, Entry;
      OrdersAreAsPlaced(engine, l, es[..|es| - 1]);
    }
  }

  // ----- What the protocol promises -----

  /** Serial accounting, for any fill engine and any interleaving of any orders and
      purchases: the log only grows; the balance and every holding are the opening ones
      plus what was filled and credited in commit order, at the end and before each fill
      (so never negative); each fill was quoted against exactly the state it replaced;
      numbers run without a gap. */
  lemma AccountingIsSerial(engine: Engine, opening: Ledger, es: seq<Event>)
    requires IsRun(engine, World(opening, []), es)
    ensures var l, ms := Run(engine, World(opening, []), es).ledger, MovesOf(engine, World(opening, []), es);
      && l.trades == opening.trades + FillsOf(ms)
      && l.sol == SolAfter(opening.sol, ms)
      && (forall m :: Held(l, m) == HeldAfter(Held(opening, m), ms, m))
      && Serial(opening, ms)
  {
    RunKeepsInv(engine, opening, es);
  }

  lemma {:induction false} FillsAreNumbered(opening: Ledger, ms: Moves, i: nat)
    requires Serial(opening, ms) && i < |FillsOf(ms)|
    ensures FillsOf(ms)[i].sequence == LastSequence(opening.trades) + i + 1
  {
    if i < |FillsOf(ms.before)| {
      FillsAreNumbered(opening, ms.before, i);
    }
  }

  /** A new account's fills are numbered one, two, three. */
  lemma NumberedFromOne(engine: Engine, sol: nat, es: seq<Event>, i: nat)
    requires IsRun(engine, World(Ledger(sol, map[], [], []), []), es)
    requires i < |Run(engine, World(Ledger(sol, map[], [], []), []), es).ledger.trades|
    ensures Run(engine, World(Ledger(sol, map[], [], []), []), es).ledger.trades[i].sequence == i + 1
  {
    var opening := Ledger(sol, map[], [], []);
    AccountingIsSerial(engine, opening, es);
    FillsAreNumbered(opening, MovesOf(engine, World(opening, []), es), i);
  }

  /** One order, one fill: the log answers an order once, with the trade it reports, or not
      at all if the order is not filled. A filled order was let through, read at its click,
      made to wait, read again, and only then quoted, by the engine on exactly those two
      readings and for exactly what was asked for. */
  lemma FillsAnswerOrders(engine: Engine, opening: Ledger, es: seq<Event>, id: nat)
    requires IsRun(engine, World(opening, []), es)
    ensures var orders := Run(engine, World(opening, []), es).orders;
      var filled := id < |orders| && IsFilled(orders[id].phase);
      && Answers(MovesOf(engine, World(opening, []), es), id) == (if filled then [orders[id].phase.outcome.trade] else [])
      && (filled ==>
            var click, fill, trade := orders[id].phase.outcome.click, orders[id].phase.outcome.fill, orders[id].phase.outcome.trade;
            && OwnEvents(es, id) == [Checked(id, false), ReadAtClick(id, Read(click)), LatencyPassed(id),
                                     ReadAtFill(id, Read(fill)), PositionRead(id), Recorded(id)]
            && id < |Requests(es)|
            && var r := Requests(es)[id];
               trade.mint == r.mint && trade.quote.side == r.side && trade.againstSol == r.seenSol && trade.order == id
               && engine(click, fill, r.side, r.size) == Some((trade.quote.sol, trade.quote.tokens)))
  {
    RunKeepsInv(engine, opening, es);
    OrdersAreTold(engine, opening, es, id);
    OrdersAreAsPlaced(engine, opening, es);
    hide Balanced, WriteFor, IsRun, Run, MovesOf, Requests, OwnEvents, Answers;
    var orders := Run(engine, World(opening, []), es).orders;
    if id < |orders| {
      assert OrderInv(engine, orders[id], MovesOf(engine, World(opening, []), es), id);
    }
  }

  /** Every step that is neither a fill nor a purchase leaves the account exactly as it was;
      so every order that ends suspended, degraded, unlisted, rejected, raced or thrown
      changes nothing. */
  lemma OnlyAFillChangesAnything(engine: Engine, w: World, e: Event)
    requires Enabled(w, e) && !e.Credited?
    ensures var t := Step(engine, w, e);
      t.ledger != w.ledger ==>
        && e.Recorded? && IsFilled(t.orders[e.id].phase)
        && t.ledger.trades == w.ledger.trades + [t.orders[e.id].phase.outcome.trade]
    ensures var t := Step(engine, w, e);
      !e.Place? && IsFilled(t.orders[e.id].phase) ==> |t.ledger.trades| == |w.ledger.trades| + 1
  {
    if e.PositionRead? {
      var o := w.orders[e.id];
      QuotedIsSound(engine, w.ledger, e.id, o.request, o.phase.click, o.phase.fill);
    }
  }

  /** One run after another. */
  function Appended(ms: Moves, more: Moves): Moves {
    if more.Opening? then ms else Then(Appended(ms, more.before), more.last)
  }

  lemma {:induction false} SolOfAppended(sol: int, ms: Moves, more: Moves)
    ensures SolAfter(sol, Appended(ms, more)) == SolAfter(sol, ms) + SolAfter(0, more)
  {
    if more.Then? {
      SolOfAppended(sol, ms, more.before);
    }
  }

  lemma {:induction false} ContinuedKeepsInv(engine: Engine, opening: Ledger, w: World, ms: Moves, es: seq<Event>)
    requires Inv(engine, opening, w, ms) && IsRun(engine, w, es)
    ensures Inv(engine, opening, Run(engine, w, es), Appended(ms, MovesOf(engine, w, es)))
  {
    hide Inv, Step, MoveOf;
    if es != [] {
      var front := es[..|es| - 1];
      ContinuedKeepsInv(engine, opening, w, ms, front);
      StepKeepsInv(engine, opening, Run(engine, w, front), Appended(ms, MovesOf(engine, w, front)), es[|es| - 1]);
    }
  }

  lemma {:induction false} RequestsStand(engine: Engine, w: World, es: seq<Event>, id: nat)
    requires IsRun(engine, w, es) && id < |w.orders|
    ensures id < |Run(engine, w, es).orders| && Run(engine, w, es).orders[id].request == w.orders[id].request
  {
    if es != [] {
      hide Commit, Quoted, Unmoved, Entry;
      RequestsStand(engine, w, es[..|es| - 1], id);
    }
  }

  lemma BalanceOf(engine: Engine, opening: Ledger, w: World, ms: Moves)
    requires Inv(engine, opening, w, ms)
    ensures w.ledger.sol == SolAfter(opening.sol, ms)
  {
  }

  /** One balance cannot be spent twice. Of two orders quoted against the same balance, once
      the first has committed the second can be filled, however long after, if and only if
      everything that moved the balance since, that fill included, has come to nothing and
      the holding is what the second order read. Otherwise it is refused and changes nothing. */
  lemma {:induction false} OneBalanceIsSpentOnce(engine: Engine, opening: Ledger, es: seq<Event>, first: nat, more: seq<Event>, second: nat)
    requires IsRun(engine, World(opening, []), es) && first != second
    requires var w := Run(engine, World(opening, []), es);
      && Enabled(w, Recorded(first)) && Unmoved(w.ledger, w.orders[first].phase.write)
      && second < |w.orders| && w.orders[first].request.seenSol == w.orders[second].request.seenSol
      && IsRun(engine, Step(engine, w, Recorded(first)), more)
      && Enabled(Run(engine, Step(engine, w, Recorded(first)), more), Recorded(second))
    ensures var w := Run(engine, World(opening, []), es);
      var once := Step(engine, w, Recorded(first));
      var t := Run(engine, once, more);
      var end, write := Step(engine, t, Recorded(second)), t.orders[second].phase.write;
      && (IsFilled(end.orders[second].phase) <==>
            && SolDelta(w.orders[first].phase.write.quote) + SolAfter(0, MovesOf(engine, once, more)) == 0
            && Held(t.ledger, write.mint) == write.expectedTokens.GetOr(0))
      && (!IsFilled(end.orders[second].phase) ==>
            end.orders[second].phase == Done(Rejected(Raced)) && end.ledger == t.ledger)
  {
    var start := World(opening, []);
    var w, ms := Run(engine, start, es), MovesOf(engine, start, es);
    var once, f := Step(engine, w, Recorded(first)), Fill(Entry(w.ledger, w.orders[first].phase.write));
    var since := MovesOf(engine, once, more);
    var t := Run(engine, once, more);
    RunKeepsInv(engine, opening, es);
    StepKeepsInv(engine, opening, w, ms, Recorded(first));
    ContinuedKeepsInv(engine, opening, once, Then(ms, f), more);
    RequestsStand(engine, once, more, second);
    WriteIsSound(engine, opening, w, ms, first);
    WriteIsSound(engine, opening, t, Appended(Then(ms, f), since), second);
    BalanceOf(engine, opening, w, ms);
    BalanceOf(engine, opening, t, Appended(Then(ms, f), since));
    SolOfAppended(opening.sol, Then(ms, f), since);
    hide Inv, IsRun, Run, MovesOf, SoundWrite, Entry;
    Answering(engine, t, second);
  }

  lemma Answering(engine: Engine, t: World, id: nat)
    requires Enabled(t, Recorded(id))
    ensures var end, write := Step(engine, t, Recorded(id)), t.orders[id].phase.write;
      && (IsFilled(end.orders[id].phase) <==> Unmoved(t.ledger, write))
      && (!Unmoved(t.ledger, write) ==> end.orders[id].phase == Done(Rejected(Raced)) && end.ledger == t.ledger)
  {
  }

  lemma WriteIsSound(engine: Engine, opening: Ledger, w: World, ms: Moves, id: nat)
    requires Inv(engine, opening, w, ms) && Enabled(w, Recorded(id))
    ensures SoundWrite(w.orders[id].phase.write) && w.orders[id].phase.write.expectedSol == w.orders[id].request.seenSol
  {
    hide Balanced, Answers, FilledFor, SoundWrite;
    assert OrderInv(engine, w.orders[id], ms, id);
  }

  // ----- The site's own engine -----

  /** The engine the site uses, with partial fills allowed. */
  function SiteEngine(slippageBps: nat, maxImpactBps: nat): Engine {
    (click, fill, side, size) =>
      match FillEngine.SimulateFill(click, fill, side, size, FillEngine.Rules(slippageBps, maxImpactBps, true))
      case Err(_) => None
      case Ok(p) => Some((p.quote.sol, p.quote.tokens))
  }

  /** With it, the size check before simulating is enough: a quote it makes for an
      affordable size is never refused by the ledger arithmetic, so an order is told it
      lacks SOL or tokens exactly when it does, and otherwise has what the engine says. */
  lemma SizeCheckIsEnough(slippageBps: nat, maxImpactBps: nat, l: Ledger, id: nat, r: Request, click: Pool, fill: Pool)
    ensures var engine := SiteEngine(slippageBps, maxImpactBps);
      var p := Quoted(engine, l, id, r, click, fill);
      var lacksSol, lacksTokens := r.side == Buy && r.size > r.seenSol, r.side == Sell && r.size > Held(l, r.mint);
      && (p == Done(Rejected(InsufficientSol)) <==> lacksSol)
      && (p == Done(Rejected(InsufficientTokens)) <==> lacksTokens)
      && (p == Done(Rejected(Refused)) <==> !lacksSol && !lacksTokens && engine(click, fill, r.side, r.size).None?)
      && (p.Writing? <==> !lacksSol && !lacksTokens && engine(click, fill, r.side, r.size).Some?)
  {
    var rules := FillEngine.Rules(slippageBps, maxImpactBps, true);
    if FillEngine.SimulateFill(click, fill, r.side, r.size, rules).Ok? {
      FillEngine.FilledAtTheSecondReading(click, fill, r.side, r.size, rules);
      FillEngine.QuotesAreSound(fill, r.side, r.size);
    }
    hide FillEngine.SimulateFill, FillEngine.PriceOf;
  }

  // ----- What the compare does not cover -----

  function InvestedInClosed(rows: seq<(Mint, Position)>, mint: Mint): int {
    if rows == [] then 0
    else
      var last := rows[|rows| - 1];
      InvestedInClosed(rows[..|rows| - 1], mint) + if last.0 == mint then NetCost(last.1) else 0
  }

  /** What the books say was put into a token and not yet returned. */
  function Invested(l: Ledger, mint: Mint): int {
    NetCost(Row(l, mint)) + InvestedInClosed(l.closed, mint)
  }

  /** What was really paid for a token, less what selling it returned. */
  function Paid(ms: Moves, mint: Mint): int {
    if ms.Opening? then 0
    else Paid(ms.before, mint) - if Fills(ms.last, mint) then SolDelta(ms.last.trade.quote) else 0
  }

  /** What is invested in a token's open row, which is whatever its last fill left there. */
  function RowAfter(invested: int, ms: Moves, mint: Mint): int {
    if ms.Opening? then invested
    else if Fills(ms.last, mint) then Left(ms.last.trade)
    else RowAfter(invested, ms.before, mint)
  }

  predicate Closes(f: Trade) {
    f.quote.side == Sell && f.againstTokens == f.quote.tokens
  }

  function Left(f: Trade): int {
    if Closes(f) then 0 else f.againstInvested - SolDelta(f.quote)
  }

  /** By how much the books of a token are out: for each fill, what the row it was computed
      from had invested over what the row it overwrote had. */
  function Drift(invested: int, ms: Moves, mint: Mint): int {
    if ms.Opening? then 0
    else
      Drift(invested, ms.before, mint) +
      if Fills(ms.last, mint) then ms.last.trade.againstInvested - RowAfter(invested, ms.before, mint) else 0
  }

  ghost predicate BooksAre(opening: Ledger, l: Ledger, ms: Moves, mint: Mint) {
    && NetCost(Row(l, mint)) == RowAfter(NetCost(Row(opening, mint)), ms, mint)
    && Invested(l, mint) == Invested(opening, mint) + Paid(ms, mint) + Drift(NetCost(Row(opening, mint)), ms, mint)
  }

  lemma ClosedSnoc(rows: seq<(Mint, Position)>, row: (Mint, Position), mint: Mint)
    ensures InvestedInClosed(rows + [row], mint) == InvestedInClosed(rows, mint) + if row.0 == mint then NetCost(row.1) else 0
  {
    assert (rows + [row])[..|rows|] == rows;
  }

  lemma NothingInvested()
    ensures NetCost(EMPTY) == 0
  {
  }

  lemma CommitRow(l: Ledger, w: Write, mint: Mint)
    requires Unmoved(l, w)
    ensures Row(Commit(l, w), mint) == if w.mint != mint then Row(l, mint) else if w.closed then EMPTY else w.position
  {
    hide NetCost;
  }

  lemma CommitCloses(l: Ledger, w: Write, mint: Mint)
    requires Unmoved(l, w)
    ensures InvestedInClosed(Commit(l, w).closed, mint)
         == InvestedInClosed(l.closed, mint) + if w.closed && w.mint == mint then NetCost(w.position) else 0
  {
    hide InvestedInClosed;
    ClosedSnoc(l.closed, (w.mint, w.position), mint);
  }

  /** What a commit does to what is invested, in the row it overwrites and in all. */
  ghost predicate Invests(l: Ledger, w: Write, mint: Mint) {
    && NetCost(Row(Commit(l, w), mint))
       == (if w.mint != mint then NetCost(Row(l, mint)) else if w.closed then 0 else NetCost(w.position))
    && Invested(Commit(l, w), mint)
       == Invested(l, mint) + if w.mint == mint then NetCost(w.position) - NetCost(Row(l, mint)) else 0
  }

  lemma CommitInvests(l: Ledger, w: Write, mint: Mint)
    requires Unmoved(l, w)
    ensures Invests(l, w, mint)
  {
    hide Commit, Unmoved, Row, InvestedInClosed, NetCost;
    NothingInvested();
    CommitRow(l, w, mint);
    CommitCloses(l, w, mint);
  }

  lemma FillDrifts(ms: Moves, w: Write, f: Trade, mint: Mint, start: int, paid: int, drift: int, row: int)
    requires SoundWrite(w) && f.mint == w.mint && f.quote == w.quote
    requires f.againstTokens == w.expectedTokens.GetOr(0) && f.againstInvested == w.readInvested
    requires paid == Paid(ms, mint) && drift == Drift(start, ms, mint) && row == RowAfter(start, ms, mint)
    ensures RowAfter(start, Then(ms, Fill(f)), mint)
         == if w.mint != mint then row else if w.closed then 0 else NetCost(w.position)
    ensures Paid(Then(ms, Fill(f)), mint) + Drift(start, Then(ms, Fill(f)), mint)
         == paid + drift + if w.mint == mint then NetCost(w.position) - row else 0
  {
  }

  lemma {:induction false} CommitBooks(opening: Ledger, l: Ledger, ms: Moves, w: Write, f: Trade, mint: Mint)
    requires BooksAre(opening, l, ms, mint) && SoundWrite(w) && Invests(l, w, mint)
    requires f.mint == w.mint && f.quote == w.quote && f.againstTokens == w.expectedTokens.GetOr(0)
    requires f.againstInvested == w.readInvested
    ensures BooksAre(opening, Commit(l, w), Then(ms, Fill(f)), mint)
  {
    hide Commit, Invested, Row, Paid, Drift, RowAfter, SoundWrite, NetCost;
    var start := NetCost(Row(opening, mint));
    FillDrifts(ms, w, f, mint, start, Paid(ms, mint), Drift(start, ms, mint), RowAfter(start, ms, mint));
  }

  lemma {:induction false} RecordingKeepsBooks(opening: Ledger, l: Ledger, ms: Moves, w: Write, mint: Mint)
    requires BooksAre(opening, l, ms, mint) && SoundWrite(w) && Unmoved(l, w)
    ensures BooksAre(opening, Commit(l, w), Then(ms, Fill(Entry(l, w))), mint)
  {
    hide BooksAre, Commit, SoundWrite, Unmoved, Invests, NetCost;
    CommitInvests(l, w, mint);
    CommitBooks(opening, l, ms, w, Entry(l, w), mint);
  }

  lemma {:induction false} CreditKeepsBooks(opening: Ledger, l: Ledger, ms: Moves, amount: nat, mint: Mint)
    requires BooksAre(opening, l, ms, mint)
    ensures BooksAre(opening, l.(sol := l.sol + amount), Then(ms, Credit(amount)), mint)
  {
    hide NetCost, InvestedInClosed;
  }

  lemma {:induction false} StepKeepsBooks(engine: Engine, opening: Ledger, w: World, ms: Moves, e: Event, mint: Mint)
    requires Inv(engine, opening, w, ms) && Enabled(w, e) && BooksAre(opening, w.ledger, ms, mint)
    ensures BooksAre(opening, Step(engine, w, e).ledger, Extended(ms, MoveOf(w, e)), mint)
  {
    hide BooksAre, Commit, SoundWrite, Inv, Unmoved, Entry, Quoted;
    if e.Recorded? {
      var write := w.orders[e.id].phase.write;
      WriteIsSound(engine, opening, w, ms, e.id);
      if Unmoved(w.ledger, write) {
        RecordingKeepsBooks(opening, w.ledger, ms, write, mint);
      } else {
        RacedChangesNothing(w.ledger, write);
      }
    } else if e.Credited? {
      CreditKeepsBooks(opening, w.ledger, ms, e.amount, mint);
    }
  }

  lemma {:induction false} RunKeepsBooks(engine: Engine, opening: Ledger, es: seq<Event>, mint: Mint)
    requires IsRun(engine, World(opening, []), es)
    ensures BooksAre(opening, Run(engine, World(opening, []), es).ledger, MovesOf(engine, World(opening, []), es), mint)
  {
    if es != [] {
      hide BooksAre, Step, MoveOf, Extended, Inv, NetCost;
      var front := es[..|es| - 1];
      RunKeepsInv(engine, opening, front);
      RunKeepsBooks(engine, opening, front, mint);
      StepKeepsBooks(engine, opening, Run(engine, World(opening, []), front), MovesOf(engine, World(opening, []), front),
                     es[|es| - 1], mint);
    }
  }

  /** Every fill overwrote a row with as much invested as the row it was computed from. */
  predicate RowsUnmoved(invested: int, ms: Moves, mint: Mint) {
    ms.Then? ==>
      && RowsUnmoved(invested, ms.before, mint)
      && (Fills(ms.last, mint) ==> ms.last.trade.againstInvested == RowAfter(invested, ms.before, mint))
  }

  /** After every event of the run the books have what was really paid. */
  ghost predicate BooksAlways(engine: Engine, opening: Ledger, es: seq<Event>, mint: Mint)
    requires IsRun(engine, World(opening, []), es)
  {
    && Invested(Run(engine, World(opening, []), es).ledger, mint)
       == Invested(opening, mint) + Paid(MovesOf(engine, World(opening, []), es), mint)
    && (es != [] ==> BooksAlways(engine, opening, es[..|es| - 1], mint))
  }

  /** The balance and the tokens are compared, the cost and the profit are not. The books of
      a token follow what was paid for it throughout a run if and only if each of its fills
      overwrote a row with as much invested as the row it was computed from. */
  lemma {:induction false} BooksFollowIff(engine: Engine, opening: Ledger, es: seq<Event>, mint: Mint)
    requires IsRun(engine, World(opening, []), es)
    ensures BooksAlways(engine, opening, es, mint)
       <==> RowsUnmoved(NetCost(Row(opening, mint)), MovesOf(engine, World(opening, []), es), mint)
  {
    hide Step, MoveOf, Invested, Row, NetCost;
    RunKeepsBooks(engine, opening, es, mint);
    if es != [] {
      BooksFollowIff(engine, opening, es[..|es| - 1], mint);
      RunKeepsBooks(engine, opening, es[..|es| - 1], mint);
    }
  }

  // ----- One writer at a time -----

  // A file database serves write transactions in the order they were asked for, and an
  // order asks for its own as its position read resumes.

  /** The write an event asks for. */
  function Asked(engine: Engine, w: World, e: Event): Option<Write>
    requires Enabled(w, e)
  {
    if !e.PositionRead? then None
    else
      var phase := Step(engine, w, e).orders[e.id].phase;
      if phase.Writing? then Some(phase.write) else None
  }

  /** Recording ends a write, and so does a throw. */
  predicate EndsAWrite(w: World, e: Event)
    requires Enabled(w, e)
  {
    e.Recorded? || (e.Broke? && w.orders[e.id].phase.Writing?)
  }

  function Queued(engine: Engine, queue: seq<Write>, w: World, e: Event): seq<Write>
    requires Enabled(w, e)
  {
    if EndsAWrite(w, e) && queue != [] then queue[1..]
    else if Asked(engine, w, e).Some? then queue + [Asked(engine, w, e).value]
    else queue
  }

  /** The writes asked for and not yet ended, in the order they were asked for. */
  function Queue(engine: Engine, w: World, es: seq<Event>): seq<Write>
    requires IsRun(engine, w, es)
  {
    if es == [] then []
    else
      var front := es[..|es| - 1];
      Queued(engine, Queue(engine, w, front), Run(engine, w, front), es[|es| - 1])
  }

  /** Only the write at the head of the queue ends. */
  predicate TakesItsTurn(queue: seq<Write>, w: World, e: Event)
    requires Enabled(w, e)
  {
    EndsAWrite(w, e) ==> queue != [] && queue[0] == w.orders[e.id].phase.write
  }

  /** A run against a file database. */
  predicate InTurn(engine: Engine, w: World, es: seq<Event>)
    requires IsRun(engine, w, es)
  {
    es == [] ||
    var front := es[..|es| - 1];
    InTurn(engine, w, front) && TakesItsTurn(Queue(engine, w, front), Run(engine, w, front), es[|es| - 1])
  }

  /** A write still finds the tokens it read ... */
  predicate AsRead(l: Ledger, w: Write) {
    Held(l, w.mint) == w.expectedTokens.GetOr(0)
  }

  /** ... and as much invested in them. */
  predicate IsFresh(l: Ledger, w: Write) {
    AsRead(l, w) && NetCost(Row(l, w.mint)) == w.readInvested
  }

  /** Of the writes queued for a token, one that finds the tokens it read is fresh, and so
      are all behind it: the stale ones read the row before its last fill. */
  ghost predicate ReadInOrder(l: Ledger, queue: seq<Write>, mint: Mint) {
    forall i, j :: 0 <= i <= j < |queue| && queue[i].mint == mint && queue[j].mint == mint && AsRead(l, queue[i]) ==>
      IsFresh(l, queue[j])
  }

  lemma AskedIsFresh(engine: Engine, l: Ledger, id: nat, r: Request, click: Pool, fill: Pool)
    requires Quoted(engine, l, id, r, click, fill).Writing?
    ensures IsFresh(l, Quoted(engine, l, id, r, click, fill).write)
  {
    hide NetCost, ApplyFill;
  }

  lemma AskingKeepsOrder(l: Ledger, queue: seq<Write>, w: Write, mint: Mint)
    requires ReadInOrder(l, queue, mint) && IsFresh(l, w)
    ensures ReadInOrder(l, queue + [w], mint)
  {
    hide AsRead, IsFresh;
  }

  lemma LeavingKeepsOrder(l: Ledger, queue: seq<Write>, mint: Mint)
    requires queue != [] && ReadInOrder(l, queue, mint)
    ensures ReadInOrder(l, queue[1..], mint)
  {
    hide AsRead, IsFresh;
    var rest := queue[1..];
    forall i, j | 0 <= i <= j < |rest| && rest[i].mint == mint && rest[j].mint == mint && AsRead(l, rest[i])
      ensures IsFresh(l, rest[j])
    {
      assert rest[i] == queue[i + 1] && rest[j] == queue[j + 1];
    }
  }

  lemma CommitMoves(l: Ledger, w: Write, mint: Mint)
    requires Unmoved(l, w) && SoundWrite(w)
    ensures w.mint != mint ==> Row(Commit(l, w), mint) == Row(l, mint) && Held(Commit(l, w), mint) == Held(l, mint)
    ensures w.mint == mint ==> Held(Commit(l, w), mint) == Held(l, mint) + TokenDelta(w.quote)
  {
    hide NetCost;
  }

  /** A fill that moves tokens leaves every write queued behind it stale. */
  lemma CommittingKeepsOrder(l: Ledger, queue: seq<Write>, mint: Mint)
    requires queue != [] && ReadInOrder(l, queue, mint) && Unmoved(l, queue[0]) && SoundWrite(queue[0])
    requires queue[0].mint == mint ==> queue[0].quote.tokens > 0
    ensures queue[0].mint == mint ==> IsFresh(l, queue[0])
    ensures ReadInOrder(Commit(l, queue[0]), queue[1..], mint)
  {
    var head, rest := queue[0], queue[1..];
    CommitMoves(l, head, mint);
    if head.mint == mint {
      assert AsRead(l, head);
      forall i | 0 <= i < |rest| && rest[i].mint == mint
        ensures !AsRead(Commit(l, head), rest[i])
      {
        assert rest[i] == queue[i + 1] && IsFresh(l, queue[i + 1]);
      }
    } else {
      LeavingKeepsOrder(l, queue, mint);
      hide Commit, SoundWrite, NetCost, Unmoved;
    }
  }

  lemma {:induction false} QueueKeepsOrder(engine: Engine, opening: Ledger, w: World, ms: Moves, queue: seq<Write>, e: Event, mint: Mint)
    requires Inv(engine, opening, w, ms) && Enabled(w, e)
    requires ReadInOrder(w.ledger, queue, mint) && TakesItsTurn(queue, w, e)
    requires MovesTokens(Extended(ms, MoveOf(w, e)), mint)
    ensures ReadInOrder(Step(engine, w, e).ledger, Queued(engine, queue, w, e), mint)
    ensures e.Recorded? && Unmoved(w.ledger, queue[0]) && queue[0].mint == mint ==> IsFresh(w.ledger, queue[0])
  {
    hide ReadInOrder, Inv, Commit, Quoted, Unmoved, SoundWrite, IsFresh;
    if e.Recorded? {
      WriteIsSound(engine, opening, w, ms, e.id);
      if Unmoved(w.ledger, queue[0]) {
        CommittingKeepsOrder(w.ledger, queue, mint);
      } else {
        RacedChangesNothing(w.ledger, queue[0]);
        LeavingKeepsOrder(w.ledger, queue, mint);
      }
    } else if EndsAWrite(w, e) {
      LeavingKeepsOrder(w.ledger, queue, mint);
    } else if Asked(engine, w, e).Some? {
      var o := w.orders[e.id];
      AskedIsFresh(engine, w.ledger, e.id, o.request, o.phase.click, o.phase.fill);
      AskingKeepsOrder(w.ledger, queue, Asked(engine, w, e).value, mint);
    } else if e.Credited? {
      CreditKeepsOrder(w.ledger, e.amount, queue, mint);
    }
  }

  lemma CreditKeepsOrder(l: Ledger, amount: nat, queue: seq<Write>, mint: Mint)
    requires ReadInOrder(l, queue, mint)
    ensures ReadInOrder(l.(sol := l.sol + amount), queue, mint)
  {
    hide NetCost;
    forall i | 0 <= i < |queue|
      ensures AsRead(l.(sol := l.sol + amount), queue[i]) == AsRead(l, queue[i])
      ensures IsFresh(l.(sol := l.sol + amount), queue[i]) == IsFresh(l, queue[i])
    {
    }
  }

  /** Every fill of a token moves some. */
  predicate MovesTokens(ms: Moves, mint: Mint) {
    ms.Then? ==> MovesTokens(ms.before, mint) && (Fills(ms.last, mint) ==> ms.last.trade.quote.tokens > 0)
  }

  /** In a file database's order every fill overwrites the row it was computed from. */
  lemma {:induction false} TurnsKeepRows(engine: Engine, opening: Ledger, es: seq<Event>, mint: Mint)
    requires IsRun(engine, World(opening, []), es) && InTurn(engine, World(opening, []), es)
    requires MovesTokens(MovesOf(engine, World(opening, []), es), mint)
    ensures ReadInOrder(Run(engine, World(opening, []), es).ledger, Queue(engine, World(opening, []), es), mint)
    ensures RowsUnmoved(NetCost(Row(opening, mint)), MovesOf(engine, World(opening, []), es), mint)
  {
    if es != [] {
      var start, front := World(opening, []), es[..|es| - 1];
      var w, ms, queue := Run(engine, start, front), MovesOf(engine, start, front), Queue(engine, start, front);
      TurnsKeepRows(engine, opening, front, mint);
      RunKeepsInv(engine, opening, front);
      RunKeepsBooks(engine, opening, front, mint);
      hide Step, Queued, Inv, ReadInOrder, Row, NetCost, Invested;
      QueueKeepsOrder(engine, opening, w, ms, queue, es[|es| - 1], mint);
    }
  }

  /** So with one writer at a time the books always follow: over every run whose fills of a
      token move tokens, whatever the engine, after every event. */
  lemma OneWriterKeepsTheBooks(engine: Engine, opening: Ledger, es: seq<Event>, mint: Mint)
    requires IsRun(engine, World(opening, []), es) && InTurn(engine, World(opening, []), es)
    requires MovesTokens(MovesOf(engine, World(opening, []), es), mint)
    ensures BooksAlways(engine, opening, es, mint)
  {
    TurnsKeepRows(engine, opening, es, mint);
    BooksFollowIff(engine, opening, es, mint);
  }

  lemma SiteMovesTokens(slippageBps: nat, maxImpactBps: nat, r: Request, click: Pool, fill: Pool, quote: Quote)
    requires PricedBy(SiteEngine(slippageBps, maxImpactBps), r, click, fill, quote)
    ensures quote.tokens > 0
  {
    FillEngine.FilledAtTheSecondReading(click, fill, r.side, r.size, FillEngine.Rules(slippageBps, maxImpactBps, true));
  }

  lemma {:induction false} SiteFillsMoveTokens(slippageBps: nat, maxImpactBps: nat, opening: Ledger, es: seq<Event>, mint: Mint)
    requires IsRun(SiteEngine(slippageBps, maxImpactBps), World(opening, []), es)
    ensures MovesTokens(MovesOf(SiteEngine(slippageBps, maxImpactBps), World(opening, []), es), mint)
  {
    if es != [] {
      var engine, front, e := SiteEngine(slippageBps, maxImpactBps), es[..|es| - 1], es[|es| - 1];
      var w := Run(engine, World(opening, []), front);
      SiteFillsMoveTokens(slippageBps, maxImpactBps, opening, front, mint);
      RunKeepsInv(engine, opening, front);
      hide SiteEngine, Balanced, Step;
      if e.Recorded? {
        var p := w.orders[e.id].phase;
        assert OrderInv(engine, w.orders[e.id], MovesOf(engine, World(opening, []), front), e.id);
        SiteMovesTokens(slippageBps, maxImpactBps, w.orders[e.id].request, p.click, p.fill, p.write.quote);
      }
    }
  }

  /** With the site's own engine every fill does, so against a file database its books never
      drift. */
  lemma SiteKeepsTheBooks(slippageBps: nat, maxImpactBps: nat, opening: Ledger, es: seq<Event>, mint: Mint)
    requires IsRun(SiteEngine(slippageBps, maxImpactBps), World(opening, []), es)
    requires InTurn(SiteEngine(slippageBps, maxImpactBps), World(opening, []), es)
    ensures BooksAlways(SiteEngine(slippageBps, maxImpactBps), opening, es, mint)
  {
    SiteFillsMoveTokens(slippageBps, maxImpactBps, opening, es, mint);
    OneWriterKeepsTheBooks(SiteEngine(slippageBps, maxImpactBps), opening, es, mint);
  }

  // ----- Where nothing queues them -----

  /** A run, where it stands, and what it did to the account. */
  ghost predicate Reaches(engine: Engine, start: World, es: seq<Event>, w: World, ms: Moves) {
    IsRun(engine, start, es) && Run(engine, start, es) == w && MovesOf(engine, start, es) == ms
  }

  lemma ReachesOn(engine: Engine, start: World, es: seq<Event>, w: World, ms: Moves, e: Event)
    requires Reaches(engine, start, es, w, ms) && Enabled(w, e)
    ensures Reaches(engine, start, es + [e], Step(engine, w, e), Extended(ms, MoveOf(w, e)))
  {
    hide Step, MoveOf, Enabled;
    assert (es + [e])[..|es|] == es;
  }

  function Joined(w: World, r: Request, phase: Phase): World {
    w.(orders := w.orders + [Order(r, phase)])
  }

  lemma JoinedMoves(w: World, r: Request, phase: Phase, next: Phase)
    ensures Moved(Joined(w, r, phase), |w.orders|, next) == Joined(w, r, next)
  {
  }

  /** An order that nothing stops, and no other overtakes before it is quoted. */
  lemma {:induction false} GoesAhead(engine: Engine, start: World, es: seq<Event>, w: World, ms: Moves, r: Request, pool: Pool)
    returns (longer: seq<Event>)
    requires Reaches(engine, start, es, w, ms)
    ensures Reaches(engine, start, longer, Joined(w, r, Quoted(engine, w.ledger, |w.orders|, r, pool, pool)), ms)
  {
    hide Reaches, Quoted, Run, IsRun;
    var id, read := |w.orders|, Read(pool);
    var e0, e1, e2 := Place(r), Checked(id, false), ReadAtClick(id, read);
    var e3, e4, e5 := LatencyPassed(id), ReadAtFill(id, read), PositionRead(id);
    ReachesOn(engine, start, es, w, ms, e0);
    ReachesOn(engine, start, es + [e0], Joined(w, r, Placed), ms, e1);
    JoinedMoves(w, r, Placed, Listed);
    ReachesOn(engine, start, es + [e0] + [e1], Joined(w, r, Listed), ms, e2);
    JoinedMoves(w, r, Listed, Clicked(pool));
    ReachesOn(engine, start, es + [e0] + [e1] + [e2], Joined(w, r, Clicked(pool)), ms, e3);
    JoinedMoves(w, r, Clicked(pool), Waited(pool));
    ReachesOn(engine, start, es + [e0] + [e1] + [e2] + [e3], Joined(w, r, Waited(pool)), ms, e4);
    JoinedMoves(w, r, Waited(pool), Repriced(pool, pool));
    ReachesOn(engine, start, es + [e0] + [e1] + [e2] + [e3] + [e4], Joined(w, r, Repriced(pool, pool)), ms, e5);
    JoinedMoves(w, r, Repriced(pool, pool), Quoted(engine, w.ledger, id, r, pool, pool));
    longer := es + [e0] + [e1] + [e2] + [e3] + [e4] + [e5];
  }

  function WithFilled(orders: seq<Order>, r: Request, pool: Pool, f: Trade): seq<Order> {
    orders + [Order(r, Done(Filled(pool, pool, f)))]
  }

  lemma WithFilledKeeps(orders: seq<Order>, r: Request, pool: Pool, f: Trade)
    requires orders != []
    ensures |WithFilled(orders, r, pool, f)| == |orders| + 1
    ensures WithFilled(orders, r, pool, f)[0] == orders[0]
  {
  }

  /** And is then recorded. */
  lemma {:induction false} GoesThrough(engine: Engine, start: World, es: seq<Event>, l: Ledger, orders: seq<Order>, ms: Moves,
                    r: Request, pool: Pool, write: Write, f: Trade) returns (longer: seq<Event>)
    requires Reaches(engine, start, es, World(l, orders), ms) && Unmoved(l, write) && f == Entry(l, write)
    requires Quoted(engine, l, |orders|, r, pool, pool) == Writing(pool, pool, write)
    ensures Reaches(engine, start, longer, World(Commit(l, write), WithFilled(orders, r, pool, f)), Then(ms, Fill(f)))
  {
    hide Reaches, Quoted, Unmoved, Commit, Entry;
    var w, id, writing := World(l, orders), |orders|, Writing(pool, pool, write);
    var ahead := GoesAhead(engine, start, es, w, ms, r, pool);
    ReachesOn(engine, start, ahead, Joined(w, r, writing), ms, Recorded(id));
    JoinedMoves(w.(ledger := Commit(l, write)), r, writing, Done(Filled(pool, pool, f)));
    longer := ahead + [Recorded(id)];
  }

  lemma {:induction false} Records(engine: Engine, start: World, es: seq<Event>, w: World, ms: Moves, id: nat, r: Request, pool: Pool, write: Write)
    requires Reaches(engine, start, es, w, ms) && Unmoved(w.ledger, write)
    requires id < |w.orders| && w.orders[id] == Order(r, Writing(pool, pool, write))
    ensures var f := Entry(w.ledger, write);
      Reaches(engine, start, es + [Recorded(id)],
              World(Commit(w.ledger, write), w.orders[id := Order(r, Done(Filled(pool, pool, f)))]), Then(ms, Fill(f)))
  {
    hide Reaches, Unmoved, Commit, Entry;
    ReachesOn(engine, start, es, w, ms, Recorded(id));
  }

  /** What an engine makes of two readings, one of them of a market that has fallen. */
  predicate MakesThese(engine: Engine, dear: Pool, cheap: Pool) {
    && engine(dear, dear, Buy, 10) == Some((10, 7))
    && engine(dear, dear, Sell, 51) == Some((47, 51))
    && engine(cheap, cheap, Buy, 29) == Some((29, 51))
    && engine(dear, dear, Buy, 18) == Some((18, 15))
  }

  lemma QuotedIs(engine: Engine, l: Ledger, id: nat, r: Request, pool: Pool, sol: nat, tokens: nat, write: Write)
    requires r.seenSol == l.sol && r.size <= (if r.side == Buy then l.sol else Held(l, r.mint))
    requires engine(pool, pool, r.side, r.size) == Some((sol, tokens))
    requires Prepared(l, l.sol, id, r.mint, Quote(r.side, sol, tokens)) == Ok(write)
    ensures Quoted(engine, l, id, r, pool, pool) == Writing(pool, pool, write)
  {
    hide Prepared;
  }

  function BuyWrite(l: Ledger, id: nat, mint: Mint, size: nat, tokens: nat): Write
    requires size <= l.sol
  {
    var held := Row(l, mint);
    Write(id, mint, Quote(Buy, size, tokens),
          l.sol, if mint in l.open then Some(held.tokens) else None, NetCost(held),
          l.sol - size, Position(held.tokens + tokens, held.cost + size, held.pnl), false)
  }

  lemma BuyIsQuoted(engine: Engine, l: Ledger, id: nat, mint: Mint, size: nat, tokens: nat, pool: Pool)
    requires engine(pool, pool, Buy, size) == Some((size, tokens)) && size <= l.sol
    ensures Quoted(engine, l, id, Request(mint, Buy, size, l.sol), pool, pool)
         == Writing(pool, pool, BuyWrite(l, id, mint, size, tokens))
    ensures Unmoved(l, BuyWrite(l, id, mint, size, tokens))
  {
    hide NetCost;
    QuotedIs(engine, l, id, Request(mint, Buy, size, l.sol), pool, size, tokens, BuyWrite(l, id, mint, size, tokens));
  }

  function SaleWrite(l: Ledger, id: nat, mint: Mint): Write {
    Write(id, mint, Quote(Sell, 47, 51), l.sol, Some(100), 100, l.sol + 47, Position(49, 49, -4), false)
  }

  lemma SaleIsQuoted(engine: Engine, l: Ledger, id: nat, mint: Mint, dear: Pool)
    requires engine(dear, dear, Sell, 51) == Some((47, 51)) && mint in l.open && l.open[mint] == Position(100, 100, 0)
    ensures Quoted(engine, l, id, Request(mint, Sell, 51, l.sol), dear, dear) == Writing(dear, dear, SaleWrite(l, id, mint))
    ensures Unmoved(l, SaleWrite(l, id, mint))
  {
    assert SliceOfBasis(Position(100, 100, 0), 51) == 51;
    QuotedIs(engine, l, id, Request(mint, Sell, 51, l.sol), dear, 47, 51, SaleWrite(l, id, mint));
  }

  lemma DriftStep(start: int, ms: Moves, f: Trade, mint: Mint)
    ensures RowAfter(start, Then(ms, Fill(f)), mint) == if f.mint == mint then Left(f) else RowAfter(start, ms, mint)
    ensures Drift(start, Then(ms, Fill(f)), mint)
         == Drift(start, ms, mint) + if f.mint == mint then f.againstInvested - RowAfter(start, ms, mint) else 0
  {
  }

  predicate TheseFills(f1: Trade, f2: Trade, f3: Trade, f0: Trade, mint: Mint) {
    && f1.mint == mint && f2.mint == mint && f0.mint == mint && f3.mint != mint
    && f1.quote == Quote(Sell, 47, 51) && f1.againstInvested == 100 && f1.againstTokens == 100
    && f2.quote == Quote(Buy, 29, 51) && f2.againstInvested == 53 && f0.againstInvested == 100
  }

  lemma DriftsByEighteen(ms: Moves, f1: Trade, f2: Trade, f3: Trade, f0: Trade, mint: Mint)
    requires ms == Then(Then(Then(Then(Opening, Fill(f1)), Fill(f2)), Fill(f3)), Fill(f0))
    requires TheseFills(f1, f2, f3, f0, mint)
    ensures Drift(100, ms, mint) == 18
  {
    assert RowAfter(100, Opening, mint) == 100 && Drift(100, Opening, mint) == 0;
    assert Left(f1) == 53 && Left(f2) == 82;
    hide RowAfter, Drift, Left;
    DriftStep(100, Opening, f1, mint);
    DriftStep(100, Then(Opening, Fill(f1)), f2, mint);
    DriftStep(100, Then(Then(Opening, Fill(f1)), Fill(f2)), f3, mint);
    DriftStep(100, Then(Then(Then(Opening, Fill(f1)), Fill(f2)), Fill(f3)), f0, mint);
  }

  lemma {:induction false} GoesFirst(engine: Engine, l: Ledger, r: Request, pool: Pool, write: Write) returns (es: seq<Event>)
    requires Quoted(engine, l, 0, r, pool, pool) == Writing(pool, pool, write)
    ensures Reaches(engine, World(l, []), es, World(l, [Order(r, Writing(pool, pool, write))]), Opening)
  {
    assert Reaches(engine, World(l, []), [], World(l, []), Opening);
    hide Reaches, Quoted;
    es := GoesAhead(engine, World(l, []), [], World(l, []), Opening, r, pool);
    assert [] + [Order(r, Writing(pool, pool, write))] == [Order(r, Writing(pool, pool, write))];
  }

  lemma {:induction false} Overtaken(engine: Engine, dear: Pool, cheap: Pool, opening: Ledger, sold: Ledger, bought: Ledger, moved: Ledger,
                  buy: Request, sale: Request, back: Request, away: Request,
                  write0: Write, write1: Write, write2: Write, write3: Write) returns (es: seq<Event>)
    requires sold == Commit(opening, write1) && bought == Commit(sold, write2) && moved == Commit(bought, write3)
    requires Unmoved(opening, write1) && Unmoved(sold, write2) && Unmoved(bought, write3) && Unmoved(moved, write0)
    requires Quoted(engine, opening, 0, buy, dear, dear) == Writing(dear, dear, write0)
    requires Quoted(engine, opening, 1, sale, dear, dear) == Writing(dear, dear, write1)
    requires Quoted(engine, sold, 2, back, cheap, cheap) == Writing(cheap, cheap, write2)
    requires Quoted(engine, bought, 3, away, dear, dear) == Writing(dear, dear, write3)
    ensures var f1, f2, f3, f0 := Entry(opening, write1), Entry(sold, write2), Entry(bought, write3), Entry(moved, write0);
      var buying := [Order(buy, Writing(dear, dear, write0))];
      var orders := WithFilled(WithFilled(WithFilled(buying, sale, dear, f1), back, cheap, f2), away, dear, f3);
      Reaches(engine, World(opening, []), es,
              World(Commit(moved, write0), orders[0 := Order(buy, Done(Filled(dear, dear, f0)))]),
              Then(Then(Then(Then(Opening, Fill(f1)), Fill(f2)), Fill(f3)), Fill(f0)))
  {
    hide *;
    var start, buying := World(opening, []), [Order(buy, Writing(dear, dear, write0))];
    es := GoesFirst(engine, opening, buy, dear, write0);
    var f1, f2, f3 := Entry(opening, write1), Entry(sold, write2), Entry(bought, write3);
    es := GoesThrough(engine, start, es, opening, buying, Opening, sale, dear, write1, f1);
    WithFilledKeeps(buying, sale, dear, f1);
    var orders, ms := WithFilled(buying, sale, dear, f1), Then(Opening, Fill(f1));
    es := GoesThrough(engine, start, es, sold, orders, ms, back, cheap, write2, f2);
    WithFilledKeeps(orders, back, cheap, f2);
    orders, ms := WithFilled(orders, back, cheap, f2), Then(ms, Fill(f2));
    es := GoesThrough(engine, start, es, bought, orders, ms, away, dear, write3, f3);
    WithFilledKeeps(orders, away, dear, f3);
    orders, ms := WithFilled(orders, away, dear, f3), Then(ms, Fill(f3));
    Records(engine, start, es, World(moved, orders), ms, 0, buy, dear, write0);
    es := es + [Recorded(0)];
  }

  lemma SoldStands(l: Ledger, id: nat, mint: Mint)
    requires Stands(l, 100, mint, Position(100, 100, 0))
    ensures Stands(Commit(l, SaleWrite(l, id, mint)), 147, mint, Position(49, 49, -4))
    ensures Row(Commit(l, SaleWrite(l, id, mint)), mint) == Position(49, 49, -4)
  {
  }

  lemma BackWhereItWas(l: Ledger, w: Write, mint: Mint, position: Position)
    requires Stands(l, w.expectedSol, mint, position) && w.mint == mint && w.expectedTokens == Some(position.tokens)
    ensures Unmoved(l, w)
  {
  }

  lemma {:induction false} BooksDrift(engine: Engine, opening: Ledger, es: seq<Event>, ms: Moves,
                   f1: Trade, f2: Trade, f3: Trade, f0: Trade, mint: Mint)
    requires IsRun(engine, World(opening, []), es) && MovesOf(engine, World(opening, []), es) == ms
    requires NetCost(Row(opening, mint)) == 100
    requires ms == Then(Then(Then(Then(Opening, Fill(f1)), Fill(f2)), Fill(f3)), Fill(f0))
    requires TheseFills(f1, f2, f3, f0, mint)
    ensures Invested(Run(engine, World(opening, []), es).ledger, mint) == Invested(opening, mint) + Paid(ms, mint) + 18
  {
    hide IsRun, Run, MovesOf, Paid, Invested, RowAfter, Drift, TheseFills;
    RunKeepsBooks(engine, opening, es, mint);
    DriftsByEighteen(ms, f1, f2, f3, f0, mint);
  }

  predicate AllFilled(orders: seq<Order>) {
    forall o :: o in orders ==> IsFilled(o.phase)
  }

  lemma FourFilled(first: Order, done: Order, sale: Request, back: Request, away: Request, dear: Pool, cheap: Pool,
                   f1: Trade, f2: Trade, f3: Trade)
    requires IsFilled(done.phase)
    ensures |WithFilled(WithFilled(WithFilled([first], sale, dear, f1), back, cheap, f2), away, dear, f3)[0 := done]| == 4
    ensures AllFilled(WithFilled(WithFilled(WithFilled([first], sale, dear, f1), back, cheap, f2), away, dear, f3)[0 := done])
  {
  }

  predicate Stands(l: Ledger, sol: nat, mint: Mint, position: Position) {
    l.sol == sol && mint in l.open && l.open[mint] == position
  }

  lemma BoughtStands(l: Ledger, sol: nat, mint: Mint, position: Position, id: nat, size: nat, tokens: nat, other: Mint)
    requires Stands(l, sol, mint, position) && size <= sol
    ensures Stands(Commit(l, BuyWrite(l, id, mint, size, tokens)), sol - size, mint,
                   Position(position.tokens + tokens, position.cost + size, position.pnl))
    ensures other != mint ==> Stands(Commit(l, BuyWrite(l, id, other, size, tokens)), sol - size, mint, position)
    ensures Row(l, mint) == position
  {
    hide NetCost;
  }

  /** A hundred lamports, and a hundred tokens that cost as many. */
  function AHundred(mint: Mint): Ledger {
    Ledger(100, map[mint := Position(100, 100, 0)], [], [])
  }

  /** Half of a holding sold, bought back for less, and what that saved spent elsewhere. */
  ghost predicate ThereAndBack(opening: Ledger, sold: Ledger, bought: Ledger, moved: Ledger, mint: Mint, other: Mint) {
    && opening == AHundred(mint)
    && sold == Commit(opening, SaleWrite(opening, 1, mint)) && sold.sol == 147
    && bought == Commit(sold, BuyWrite(sold, 2, mint, 29, 51)) && bought.sol == 118
    && moved == Commit(bought, BuyWrite(bought, 3, other, 18, 15))
  }

  lemma AHundredStands(mint: Mint)
    ensures var l := AHundred(mint);
      && Stands(l, 100, mint, Position(100, 100, 0)) && Row(l, mint) == Position(100, 100, 0) && l.sol == 100
      && var w := BuyWrite(l, 0, mint, 10, 7); w.mint == mint && w.expectedTokens == Some(100) && w.expectedSol == 100
  {
    hide NetCost;
  }

  lemma GoesAndReturns(mint: Mint, other: Mint) returns (opening: Ledger, sold: Ledger, bought: Ledger, moved: Ledger)
    requires mint != other
    ensures ThereAndBack(opening, sold, bought, moved, mint, other)
    ensures Stands(opening, 100, mint, Position(100, 100, 0))
    ensures Row(opening, mint) == Position(100, 100, 0) && Row(sold, mint) == Position(49, 49, -4)
    ensures Unmoved(moved, BuyWrite(opening, 0, mint, 10, 7))
  {
    hide Commit, SaleWrite, BuyWrite, Unmoved, NetCost, Row, Held, AHundred;
    opening := AHundred(mint);
    AHundredStands(mint);
    SoldStands(opening, 1, mint);
    sold := Commit(opening, SaleWrite(opening, 1, mint));
    BoughtStands(sold, 147, mint, Position(49, 49, -4), 2, 29, 51, other);
    bought := Commit(sold, BuyWrite(sold, 2, mint, 29, 51));
    BoughtStands(bought, 118, mint, Position(100, 78, -4), 3, 18, 15, other);
    moved := Commit(bought, BuyWrite(bought, 3, other, 18, 15));
    BackWhereItWas(moved, BuyWrite(opening, 0, mint, 10, 7), mint, Position(100, 78, -4));
  }

  lemma TheseAreFilled(opening: Ledger, sold: Ledger, bought: Ledger, moved: Ledger, mint: Mint, other: Mint)
    requires mint != other && opening.sol == 100 && sold.sol == 147 && bought.sol == 118
    requires Row(opening, mint) == Position(100, 100, 0) && Row(sold, mint) == Position(49, 49, -4)
    ensures TheseFills(Entry(opening, SaleWrite(opening, 1, mint)), Entry(sold, BuyWrite(sold, 2, mint, 29, 51)),
                       Entry(bought, BuyWrite(bought, 3, other, 18, 15)), Entry(moved, BuyWrite(opening, 0, mint, 10, 7)), mint)
  {
    assert NetCost(Position(100, 100, 0)) == 100 && NetCost(Position(49, 49, -4)) == 53;
    assert mint in opening.open ==> opening.open[mint].tokens == 100;
    hide Row, NetCost, LastSequence;
  }

  /** One order is quoted and held up while three others move the row and move it back. */
  lemma {:induction false} HeldUp(engine: Engine, dear: Pool, cheap: Pool, mint: Mint, other: Mint) returns (es: seq<Event>)
    requires mint != other && MakesThese(engine, dear, cheap)
    ensures var opening := AHundred(mint);
      && IsRun(engine, World(opening, []), es)
      && var w, ms := Run(engine, World(opening, []), es), MovesOf(engine, World(opening, []), es);
         && |w.orders| == 4 && AllFilled(w.orders)
         && Invested(w.ledger, mint) == Invested(opening, mint) + Paid(ms, mint) + 18
  {
    assert NetCost(Position(100, 100, 0)) == 100;
    hide Commit, Quoted, Unmoved, Paid, Invested, IsRun, Run, MovesOf, AllFilled, WithFilled, Entry, TheseFills, SaleWrite,
      BuyWrite, Row, NetCost;
    var opening, sold, bought, moved := GoesAndReturns(mint, other);
    var write0, write1 := BuyWrite(opening, 0, mint, 10, 7), SaleWrite(opening, 1, mint);
    var write2, write3 := BuyWrite(sold, 2, mint, 29, 51), BuyWrite(bought, 3, other, 18, 15);
    BuyIsQuoted(engine, opening, 0, mint, 10, 7, dear);
    SaleIsQuoted(engine, opening, 1, mint, dear);
    BuyIsQuoted(engine, sold, 2, mint, 29, 51, cheap);
    BuyIsQuoted(engine, bought, 3, other, 18, 15, dear);
    var buy, sale := Request(mint, Buy, 10, 100), Request(mint, Sell, 51, 100);
    var back, away := Request(mint, Buy, 29, 147), Request(other, Buy, 18, 118);
    es := Overtaken(engine, dear, cheap, opening, sold, bought, moved, buy, sale, back, away, write0, write1, write2, write3);
    var f1, f2, f3, f0 := Entry(opening, write1), Entry(sold, write2), Entry(bought, write3), Entry(moved, write0);
    FourFilled(Order(buy, Writing(dear, dear, write0)), Order(buy, Done(Filled(dear, dear, f0))),
               sale, back, away, dear, cheap, f1, f2, f3);
    TheseAreFilled(opening, sold, bought, moved, mint, other);
    BooksDrift(engine, opening, es, Then(Then(Then(Then(Opening, Fill(f1)), Fill(f2)), Fill(f3)), Fill(f0)),
               f1, f2, f3, f0, mint);
  }

  /** The market where the first orders read it, and where it has fallen to half. */
  const DEAR := FillEngine.Pool(1_000, 1_000, 1_000, 100, FillEngine.PumpfunCurve)
  const CHEAP := FillEngine.Pool(500, 1_000, 1_000, 100, FillEngine.PumpfunCurve)

  lemma SiteQuotes(slippageBps: nat, maxImpactBps: nat, pool: Pool, side: Side, size: int, p: FillEngine.Priced)
    requires FillEngine.PriceOf(pool, side, size) == Ok(p) && p.impactBps <= maxImpactBps
    ensures SiteEngine(slippageBps, maxImpactBps)(pool, pool, side, size) == Some((p.quote.sol, p.quote.tokens))
  {
    assert FillEngine.ShortfallBps(FillEngine.Received(p.quote), FillEngine.Received(p.quote)) <= 0;
    hide FillEngine.PriceOf, FillEngine.ShortfallBps, FillEngine.Received;
  }

  lemma BoughtDear()
    ensures FillEngine.PriceOf(DEAR, Buy, 10) == Ok(FillEngine.Priced(Quote(Buy, 10, 7), 2, 1_428, false))
  {
    assert FillEngine.AfterFee(DEAR, 10) == 8;
    assert FillEngine.CurveOut(DEAR, 8) == 7;
    assert FillEngine.ImpactBps(8, 7, DEAR) == 1_428;
    hide FillEngine.AfterFee, FillEngine.CurveOut, FillEngine.ImpactBps;
  }

  lemma SoldDear()
    ensures FillEngine.PriceOf(DEAR, Sell, 51) == Ok(FillEngine.Priced(Quote(Sell, 47, 51), 1, 589, false))
  {
    assert FillEngine.ImpactBps(48, 51, DEAR) == 589;
    hide FillEngine.ImpactBps;
  }

  lemma BoughtCheap()
    ensures FillEngine.PriceOf(CHEAP, Buy, 29) == Ok(FillEngine.Priced(Quote(Buy, 29, 51), 2, 588, false))
  {
    assert FillEngine.AfterFee(CHEAP, 29) == 27;
    assert FillEngine.CurveOut(CHEAP, 27) == 51;
    assert FillEngine.ImpactBps(27, 51, CHEAP) == 588;
    hide FillEngine.AfterFee, FillEngine.CurveOut, FillEngine.ImpactBps;
  }

  lemma BoughtElsewhere()
    ensures FillEngine.PriceOf(DEAR, Buy, 18) == Ok(FillEngine.Priced(Quote(Buy, 18, 15), 2, 666, false))
  {
    assert FillEngine.AfterFee(DEAR, 18) == 16;
    assert FillEngine.CurveOut(DEAR, 16) == 15;
    assert FillEngine.ImpactBps(16, 15, DEAR) == 666;
    hide FillEngine.AfterFee, FillEngine.CurveOut, FillEngine.ImpactBps;
  }

  lemma SiteMakesThese(slippageBps: nat, maxImpactBps: nat)
    requires maxImpactBps >= 1_500
    ensures MakesThese(SiteEngine(slippageBps, maxImpactBps), DEAR, CHEAP)
  {
    hide FillEngine.PriceOf, SiteEngine, DEAR, CHEAP;
    BoughtDear();
    SoldDear();
    BoughtCheap();
    BoughtElsewhere();
    SiteQuotes(slippageBps, maxImpactBps, DEAR, Buy, 10, FillEngine.Priced(Quote(Buy, 10, 7), 2, 1_428, false));
    SiteQuotes(slippageBps, maxImpactBps, DEAR, Sell, 51, FillEngine.Priced(Quote(Sell, 47, 51), 1, 589, false));
    SiteQuotes(slippageBps, maxImpactBps, CHEAP, Buy, 29, FillEngine.Priced(Quote(Buy, 29, 51), 2, 588, false));
    SiteQuotes(slippageBps, maxImpactBps, DEAR, Buy, 18, FillEngine.Priced(Quote(Buy, 18, 15), 2, 666, false));
  }

  /** A run with the site's own engine, of four orders that are all filled. One is quoted
      and held up; meanwhile half of the holding is sold, bought back at a lower reading,
      and what that saved is put into another token. Balance and tokens are back where the
      first order read them, so it too is recorded, and from then on the books say eighteen
      lamports more went into the token than did. A file database's order has no such run. */
  lemma EqualReturnLosesTheBooks(slippageBps: nat, maxImpactBps: nat, mint: Mint, other: Mint) returns (es: seq<Event>)
    requires mint != other && maxImpactBps >= 1_500
    ensures var engine, opening := SiteEngine(slippageBps, maxImpactBps), AHundred(mint);
      && IsRun(engine, World(opening, []), es) && !InTurn(engine, World(opening, []), es)
      && var w, ms := Run(engine, World(opening, []), es), MovesOf(engine, World(opening, []), es);
         && |w.orders| == 4 && AllFilled(w.orders)
         && Invested(w.ledger, mint) == Invested(opening, mint) + Paid(ms, mint) + 18
  {
    var engine := SiteEngine(slippageBps, maxImpactBps);
    SiteMakesThese(slippageBps, maxImpactBps);
    hide SiteEngine;
    es := HeldUp(engine, DEAR, CHEAP, mint, other);
    hide Run, MovesOf, IsRun, InTurn, Invested, Paid, AllFilled;
    var opening := AHundred(mint);
    if InTurn(engine, World(opening, []), es) {
      SiteKeepsTheBooks(slippageBps, maxImpactBps, opening, es, mint);
    }
  }
}
