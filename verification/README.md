# Probatio, modelled and proved

Probatio is a practice trading site for memecoins: it reads real pools, fills practice
orders against them, ranks the accounts, and keeps charts, a launch feed and a database
alive while it does. This project models the parts of it where something can go wrong
between two lines of code, and proves what those parts promise.

`dafny verify dfyconfig.toml` checks all of it.

## What is modelled, and where

| file | models |
|---|---|
| `ChartBackfill.dfy`, `Recency.dfy` | admission of chart walks: the cap, the queue, freshness, the two least-recently-marked caches, the hand-over of a freed slot (`app/lib/chart-backfill.ts`) |
| `BackgroundWrite.dfy` | the promise-chain write lock with retries (`app/lib/background-write.ts`) |
| `ExecuteTrade.dfy`, `Trading.dfy` | the optimistic trade protocol, `recordTrade` with its rollback, the write queue of a file database, purchases credited beside it, and `applyFill` (`app/lib/execute-trade.ts`, `packages/db/src/trading.ts`, `packages/db/src/client.ts`, `packages/trading/src/apply.ts`) |
| `FillEngine.dfy`, `Fixed.dfy` | quoting and simulating a fill on a constant-product pool, in exact integers (`packages/sim`) |
| `DbReclaim.dfy` | replacing a full database across two filesystems, with crashes, and the connection that serves it (`app/lib/db-reclaim.ts`, `app/lib/db.ts`, `app/lib/retention.ts`) |
| `ContinuousCandles.dfy` | drawing a candle series without gaps (`app/lib/continuous-candles.ts`) |
| `Indicators.dfy`, `Oscillators.dfy`, `Macd.dfy`, `Reals.dfy` | SMA, EMA, Bollinger bands and VWAP; RSI; MACD (`app/lib/indicators.ts`) |
| `LaunchFeed.dfy` | the three-lane feed's stream handlers (`app/components/launch-feed.tsx`) |
| `HouseTraders.dfy`, `Numerals.dfy` | base58 and market-sized halving (`app/lib/house-traders.ts`) |
| `Explore.dfy` | the sparkline workers, paging, the listing and the deepest pair (`app/lib/explore.ts`) |
| `LaunchStream.dfy` | the stream-slot counter (`app/lib/launch-stream.ts`) |
| `ChartWarm.dfy` | the warm rotation (`app/lib/chart-warm.ts`) |
| `Payments.dfy` | intents, settlements and the query for what was bought (`packages/db/src/payments.ts`, `packages/db/src/seasons.ts`, `app/app/api/store/intent/route.ts`, `app/app/api/pay/confirm/route.ts`) |
| `PracticeTiers.dfy`, `Leaderboard.dfy`, `Ranking.dfy` | tier credit, position value, the all-time return, and season order (`app/lib/leaderboard.ts`, `packages/payments/src/store.ts`, `packages/scoring/src/rank.ts`) |
| `Backtest.dfy` | the gaps between recorded swaps (`app/lib/backtest.ts`) |

A protocol is a state and a step function; code between two awaits is one step, and a run
is any sequence of enabled steps, so every interleaving is covered. Where the source keeps
mutable state there is a class whose methods change it, each proved to take the model from
the old state to the step's new one; the theorems are about the step functions and their
runs. Loops in the source are loops here, proved against a function.

`recordTrade`, `applyFill`, the quote engine and the tier table are modelled from their own
sources. The trade protocol's theorems hold for any fill engine, and a few lemmas add what
the site's own engine guarantees.

## What came out false, and exactly when it holds

* A deferred chart walk can be stranded beside a free slot: the queue is re-admitted
  through the freshness test, so a clock that steps back a millisecond drops the mint that
  was pulled and starts nobody else. It cannot happen with a clock that does not go back
  (`WorkIsConserved`), and `HandOverConservesIff` gives the exact condition without one.
* The reclaim must finish before the connection opens, says `app/lib/db.ts:21-24`, but
  retention reruns it while the connection stands (`app/lib/retention.ts:53`). After such a
  sweep has swapped the file, accounts go to the replaced one and are gone at the next boot,
  though no pass is running, no marker stands and the count succeeded
  (`RecordedAfterASweep`); an account recorded while it compacts is swapped away
  (`RecordedDuringASweep`). A marker left behind is not harmless, as the comment at
  `app/lib/db-reclaim.ts:293-295` has it: the next boot restores over whatever was recorded
  since (`MarkerLeftBehind`). A failed count guards nothing (`CountFailed`).
  `AccountsDropIff` names the three steps that lose accounts, `NoAccountIsLost` the
  conditions under which none does, and `BootPassesNeverDetach` says that passes at boot
  alone are safe from the first. The restore at line 153 copies in place, so it is the one
  window in which a lost container disk loses the database
  (`SafeExactlyWhenRestoreCompletes`, `InterruptedRestoreLosesTheDatabase`).
* The compare at the end of a trade covers SOL and tokens, not cost and profit;
  `BooksFollowIff` says, over whole runs of any engine against any database, exactly when
  the books follow. Against a file database they always do: its write transactions are
  served in the order they are asked for, so an order quoted later cannot write first, and a
  fill that was queued ahead shows in the tokens (`OneWriterKeepsTheBooks`,
  `SiteKeepsTheBooks`). A remote database has no such queue. There
  an order in flight across trades that bring both SOL and tokens back commits and misbooks
  the position (`EqualReturnLosesTheBooks`, four orders at the site's own quotes).
  A comment at the write speaks of a read before the wait; the code reads the position after it
  (`app/lib/execute-trade.ts:181`), and the model follows the code.
* Filling a series twice changes nothing exactly when the missing buckets fit the cap
  (`IdempotentIffTheCapHolds`).
* The all-time board is to rank on the return on what an account started with and what was
  bought, so that ten SOL bought and turned into eleven is not a hundred and ten percent up
  (`app/lib/leaderboard.ts:126-131`). It never sees a purchase. The query asks for payments
  with the status `settled` (`packages/db/src/seasons.ts:346`), while `settlePayment` writes
  `verified` (`packages/db/src/payments.ts:210`) and the column admits no `settled`
  (`packages/db/migrations/019_practice_purchases.sql:28`): `PurchasedIsNought`. Purchases
  carry no season either (`app/app/api/store/intent/route.ts:96`), so the sum would stand
  under no account's key: `PurchasesHaveNoSeason`. The promise is kept if and only if nothing
  was bought (`PromiseKeptIff`), and otherwise errs to the buyer's favour
  (`NeverBelowThePromise`), by ten percent for every SOL at break-even
  (`BreakEvenReadsWhatWasBought`; `OneTierBuyerReadsAGain` and
  `TenIntoElevenReadsAHundredAndTen` are inputs).
* The credit of a sum of purchases, which `creditedFor` is written for, is not that of the
  purchases unless they do not stack (`CreditedAsBoughtIff`): six singles make a ten
  (`StackedPurchasesDrift`). Since the sums the board has are of nothing, no row shows it.
* A series whose averages hold no movement reads a relative strength of a hundred, and so
  does its mirror image: one that never moved, or over a period of one, which `rsi` accepts,
  one whose last bar was flat (`RsiMirrorsIff`, `FlatAfterARise`).

## Model

| member | source | states |
|---|---|---|
| ChartBackfill.Backfiller.constructor | app/lib/chart-backfill.ts:82-114 | empty collections, and six slots on a dedicated endpoint or two on a public one |
| ChartBackfill.Backfiller.BackfillChart | app/lib/chart-backfill.ts:334-363 | a request is answered fresh, ignored while running, deferred while every slot is taken, or takes a slot and leaves the queue; nothing else changes |
| ChartBackfill.Backfiller.FinishWalk | app/lib/chart-backfill.ts:364-516 | the end of a walk: its mark if it settled, its slot freed, and the slot handed to the first deferred mint through the same admission |
| ChartBackfill.Backfiller.MarkSettledAt | app/lib/chart-backfill.ts:133-141 | re-inserting a mint at the end of `settled` and evicting from the front is keeping the 5,000 most recently marked, each with its time |
| ChartBackfill.Backfiller.EvictSettled | app/lib/chart-backfill.ts:136-140 | the eviction loop leaves exactly the newest entries |
| ChartBackfill.Backfiller.MarkChartedNow | app/lib/chart-backfill.ts:161-169 | the same for `charted` and 512 |
| ChartBackfill.Backfiller.BackfillInFlight | app/lib/chart-backfill.ts:171-174 | a mint is reported in flight exactly when it runs or waits and its history has not landed |
| ChartBackfill.InFlightIff | app/lib/chart-backfill.ts:150-174 | over every run whose clock does not go back a chart is said to be on its way exactly while its mint has been asked for, and was not fresh, and has not been walked to an end since, and no history of it landed that is still remembered |
| ChartBackfill.FreshIff | app/lib/chart-backfill.ts:143-147 | over every run a mint is fresh exactly for eight minutes after its latest mark, and only while fewer than 5,000 others have settled since |
| ChartBackfill.WorkIsConserved | app/lib/chart-backfill.ts:334-363 | over every run whose clock does not go back, from any state that has it: the cap holds, running and waiting are disjoint, no waiting mint is fresh, and nothing waits while a slot is free |
| ChartBackfill.WorkIsConservedFromBoot | app/lib/chart-backfill.ts:84-94 | the same spelled out for every run from boot |
| ChartBackfill.HandOverConservesIff | app/lib/chart-backfill.ts:498-516 | with no assumption on the clock, the end of a walk keeps work conserved exactly when the mint it pulls from the queue is not fresh by the clock read then, or nobody else waits |
| ChartBackfill.StrandedWhenTheClockGoesBack | app/lib/chart-backfill.ts:144-147 | a possible run from boot with one backward millisecond that leaves a mint waiting beside a free slot |
| ChartBackfill.WaitsItsTurn | app/lib/chart-backfill.ts:86-94 | no overtaking: whoever asks for what, a mint with k ahead of it moves up once per walk that ends and never otherwise |
| ChartBackfill.StartedByTheNextEnd | app/lib/chart-backfill.ts:506-516 | and is started by exactly the (k+1)-th end |
| ChartBackfill.NothingIsForgotten | app/lib/chart-backfill.ts:334-363 | a request ends as a walk, a place in the queue or fresh history, and only its own walk's end takes a mint out |
| ChartBackfill.CachesAreRecency | app/lib/chart-backfill.ts:113-141 | after any run `settled` is the recency cache of the run's marks, each mint with its latest time, and `charted` likewise |
| ChartBackfill.SettledRemembersTheMostRecent | app/lib/chart-backfill.ts:158-169 | a mint is in a cache if and only if it was marked and fewer than the cap's worth of other mints have been marked since |
| Recency.RecallIsNewest | app/lib/chart-backfill.ts:133-141 | evicting at every mark is the same as never evicting and keeping the last `cap` keys in order of last mark |
| Recency.HoldsTheMostRecent | app/lib/chart-backfill.ts:133-141 | membership of the bounded cache, both ways, in terms of the history of marks alone |
| Recency.OldestMarkFirst | app/lib/chart-backfill.ts:158-169 | the cache lists its keys in the order of their last marks |
| BackgroundWrite.Lock.constructor | app/lib/background-write.ts:28-28 | a settled tail and no calls |
| BackgroundWrite.Lock.Queue | app/lib/background-write.ts:43-50 | a call takes the tail to wait on and leaves its own promise behind it |
| BackgroundWrite.Lock.Enter | app/lib/background-write.ts:50-52 | a call enters when the chain it waits on has settled |
| BackgroundWrite.Lock.Attempt | app/lib/background-write.ts:52-69 | an attempt returns, backs off when the file is busy and attempts are left, or gives up; whichever ends it releases the next |
| BackgroundWrite.Lock.Wake | app/lib/background-write.ts:58-62 | the end of a back-off is another attempt |
| BackgroundWrite.OneAtATime | app/lib/background-write.ts:43-69 | over every interleaving at most one call is writing or backing off |
| BackgroundWrite.FirstCalledFirstServed | app/lib/background-write.ts:43-52 | a call enters only when all before it are over, and before any after it has begun |
| BackgroundWrite.FailureLetsTheNextIn | app/lib/background-write.ts:64-69 | however a write ends, in failure too, the next caller can enter at once |
| BackgroundWrite.NeverStuck | app/lib/background-write.ts:43-69 | in every reachable state with an unfinished call some call at or before it can move |
| BackgroundWrite.AttemptsAreBounded | app/lib/background-write.ts:30-36 | at most five attempts, each back-off 120 ms longer than the last and 1,200 ms in all, retries only after a busy file, and a busy ending only after all five |
| BackgroundWrite.EveryRetryWaits | app/lib/background-write.ts:57-65 | over every run no attempt follows a busy one before its back-off has ended |
| BackgroundWrite.RunsEnd | app/lib/background-write.ts:43-69 | with no new callers every run is at most ten steps a call, so with NeverStuck all calls finish |
| Trading.FillMovesItsAmounts | packages/trading/src/apply.ts:63-135 | a fill is refused exactly when the SOL or the tokens for it are not there, and says which; otherwise it moves the quoted SOL and tokens and keeps cost less profit equal to SOL put in |
| Trading.RoundingStaysInTheBasis | packages/trading/src/apply.ts:95-135 | a partial sale rounds its slice of the basis down, so what is kept carries at least its share of the cost |
| ExecuteTrade.Desk.constructor | packages/db/src/trading.ts:111-171 | an account with its opening balance and no positions |
| ExecuteTrade.Desk.RecordTrade | packages/db/src/trading.ts:293-459 | the write commits all of balance, position row and log when balance and tokens still equal what was read, and otherwise rolls all of it back |
| ExecuteTrade.Desk.Resume | app/lib/execute-trade.ts:123-344 | one order's next step between two awaits, for any fill engine: reads, the wait, the second read, the checks, the write |
| ExecuteTrade.AccountingIsSerial | app/lib/execute-trade.ts:268-344 | over every interleaving of any orders and purchases: balance and holdings are the opening ones plus what was filled and credited in commit order, before and after each, never negative; each fill was quoted against exactly what it replaced; log numbers have no gap |
| ExecuteTrade.NumberedFromOne | packages/db/src/trading.ts:352-358 | a new account's fills are numbered one, two, three, over every interleaving |
| ExecuteTrade.FillsAnswerOrders | app/lib/execute-trade.ts:123-241 | the log answers an order exactly once, with the trade the order reports, or not at all if it is not filled; a filled order was let through, read at its click, made to wait, read again and only then quoted, in that order and with nothing else between, and its trade is the engine's answer on exactly those two readings for what was asked |
| ExecuteTrade.OrdersAreTold | app/lib/execute-trade.ts:123-344 | over every run, where an order stands and how it ended say exactly which answers it was given and in which order: suspended, unlisted, degraded at either reading, no market, refused, raced, filled or thrown |
| ExecuteTrade.OrdersAreAsPlaced | app/lib/execute-trade.ts:108-112 | and each order is the one that was placed, whatever else runs |
| ExecuteTrade.OnlyAFillChangesAnything | app/lib/execute-trade.ts:320-344 | of the steps of orders only a fill changes the account; every other outcome leaves it exactly as it was |
| ExecuteTrade.OneBalanceIsSpentOnce | app/lib/execute-trade.ts:310-318 | of two orders on one balance, once one has committed, over every continuation of the run the other is recorded if and only if all that has moved the balance since, that fill included, sums to nought and the holding is what the other read; otherwise it is refused as raced and changes nothing |
| ExecuteTrade.SizeCheckIsEnough | app/lib/execute-trade.ts:181-201 | with the site's own engine an order is told it lacks SOL or tokens exactly when it does, and is otherwise refused exactly when the engine refuses it: the ledger never refuses what the size check let through |
| ExecuteTrade.BooksFollowIff | app/lib/execute-trade.ts:268-318 | whatever the database, which compares neither cost nor profit: over any run the books of a token follow what was paid for it throughout if and only if each of its fills overwrote a row with as much invested as the row it was computed from |
| ExecuteTrade.OneWriterKeepsTheBooks | packages/db/src/client.ts:77-97 | a file database serves write transactions in the order they were asked for, and an order asks as its position read resumes: over every such run whose fills of a token move tokens, for any engine, its books follow after every event |
| ExecuteTrade.SiteKeepsTheBooks | packages/db/src/client.ts:57-57 | and over every such run with the site's own engine, unconditionally |
| ExecuteTrade.EqualReturnLosesTheBooks | packages/db/src/client.ts:54-57 | a remote database has no such queue: a run with the site's own engine, at any tolerance, of four orders that are all filled, each on its own reading; three bring balance and tokens back at another cost while the first is in flight, which then commits and puts the books eighteen lamports out |
| FillEngine.BuyIsSound | packages/sim/src/engine.ts:94-172 | on the pool's side: a buy takes some of the deliverable tokens, pays a fee of at least a lamport and at least what the curve asks, and never more than was offered |
| FillEngine.SellIsSound | packages/sim/src/engine.ts:180-208 | a sell takes off the curve, fee included, at most what it owes, for exactly the tokens offered |
| FillEngine.QuotesAreSound | packages/sim/src/engine.ts:94-208 | on the pool's side: both, for every pool and size that can be quoted |
| FillEngine.BuyDeliversAll | packages/sim/src/engine.ts:94-135 | on the trader's side: a buy is capped exactly when what is left after the fee pays for more than there is; one that is not takes the whole size, puts all but the fee on the curve and delivers all the curve allows, as one token more would cost more |
| FillEngine.CappedBuyPaysTheLeast | packages/sim/src/engine.ts:137-172 | a capped buy puts no more on the curve than the least its tokens cost there, and is charged at most that, the fee on it and a lamport |
| FillEngine.BuyPaysItsFee | packages/sim/src/engine.ts:84-93 | every buy is charged at least the fee on what enters the curve and a lamport |
| FillEngine.SellPaysAll | packages/sim/src/engine.ts:180-208 | a sell pays out all that the curve owes for its tokens, less a fee that is the least that covers its rate |
| FillEngine.BuyQuotedIff | packages/sim/src/engine.ts:94-123 | exactly which buys are quoted, and for each of the others which refusal |
| FillEngine.SellQuotedIff | packages/sim/src/engine.ts:180-197 | and exactly which sells |
| FillEngine.ImpactIsBeyondSpot | packages/sim/src/engine.ts:57-82 | the impact of a quote is how far its price lies beyond spot, above it for a buy and below it for a sell, in whole basis points |
| FillEngine.ApplyGrowsTheProduct | packages/sim/src/engine.ts:221-239 | applying a quote conserves SOL and tokens, and what can be delivered, and never lowers the product of the reserves |
| FillEngine.FillsConserve | packages/sim/src/engine.ts:221-239 | over any sequence of orders SOL and tokens are conserved between pool, trader and fees, and every buy paid a fee |
| FillEngine.NoSessionFarmsAPool | packages/sim/src/engine.ts:64-239 | however a trader splits and repeats orders, ending on the tokens they began with leaves them at least a lamport poorer for every buy |
| FillEngine.PaperFillLosesAtSpot | packages/sim/src/engine.ts:94-208 | against one unchanged reading no fill adds value at its spot price, and only a refusal leaves it equal |
| FillEngine.NoReadingIsFarmed | packages/sim/src/execution.ts:114-196 | so no sequence of practice fills against one reading ends on the same tokens with more SOL |
| FillEngine.FilledAtTheSecondReading | packages/sim/src/execution.ts:114-196 | a fill is the second reading's quote, within the impact limit at both readings and within the slippage tolerance of the first |
| FillEngine.FilledIff | packages/sim/src/execution.ts:114-196 | exactly which orders are filled, and for the others which refusal: both readings on one venue, quoted, within the impact limit, whole unless a part will do, and received within the tolerance |
| FillEngine.ShortfallBounds | packages/sim/src/execution.ts:100-106 | the floored shortfall is within a tolerance exactly when less than a basis point more than it is missing |
| Fixed.MulDivFloor | packages/sim/src/fixed.ts:50-61 | the largest number whose multiple of the divisor fits under the product |
| Fixed.MulDivCeil | packages/sim/src/fixed.ts:63-70 | the smallest whose multiple covers it |
| Fixed.TruncatedDiv | app/lib/leaderboard.ts:197-197 | integer division that rounds toward zero for either sign |
| DbReclaim.Host.constructor | app/lib/db-reclaim.ts:137-165 | a process that has just started on a whole database |
| DbReclaim.Host.ReclaimIfTight | app/lib/db-reclaim.ts:137-304 | one uncrashed pass, whatever throws, is the run of the step machine |
| DbReclaim.Host.Compact | app/lib/db-reclaim.ts:197-234 | the count, the clearing, the compaction and its refusals are the machine's steps |
| DbReclaim.Host.Stage | app/lib/db-reclaim.ts:217-234 | the copy off the volume and what retention leaves of it are the machine's steps |
| DbReclaim.Host.SwapIn | app/lib/db-reclaim.ts:236-304 | copy, check, mark, rename and unmark in that order are the machine's steps, whatever throws |
| DbReclaim.Host.BringBeside | app/lib/db-reclaim.ts:254-283 | a copy that fails or holds fewer accounts than were counted is removed and goes no further |
| DbReclaim.Host.Replace | app/lib/db-reclaim.ts:285-296 | the mark stands before the rename, and the rename leaves an open connection on the file it replaced |
| DbReclaim.Host.RecoverIfCorrupt | app/lib/db-reclaim.ts:82-135 | a database is put aside if and only if the check ran and reported no "ok", or failed in a way that means a malformed file, and the rename went through; in every other case it stays where it is |
| DbReclaim.RestoringPass | app/lib/db-reclaim.ts:147-165 | a pass that finds the marker puts the staged copy over the live file unless there is none or the copy never begins, leaves part of it if the copy stops midway, and touches nothing else |
| DbReclaim.IdlePass | app/lib/db-reclaim.ts:167-171 | one with no database, or on a volume that is not tight, does nothing at all |
| DbReclaim.CompactingPass | app/lib/db-reclaim.ts:168-304 | any other, whatever throws: the live file is replaced exactly if the copy is whole, checked, holds the accounts counted and is renamed; the marker is left exactly where a rename may be half done; and a copy that goes no further is removed unless removing throws |
| DbReclaim.OpensAndRecords | app/lib/db.ts:19-35 | opening serves the whole database at the path, makes an empty one where there is none and fails on part of one, and what is recorded goes to the file that was opened |
| DbReclaim.SafeExactlyWhenRestoreCompletes | app/lib/db-reclaim.ts:149-165 | each event keeps the database safe if and only if it lets a restore that has begun complete |
| DbReclaim.AlwaysADatabase | app/lib/db-reclaim.ts:137-304 | over every run with crashes between any two steps, with or without losing the container disk, whatever throws and whatever compaction loses: whenever the site serves, the live path holds a whole database with at least the accounts last counted, and at any other instant the staged copy does if the live path does not |
| DbReclaim.InterruptedRestoreLosesTheDatabase | app/lib/db-reclaim.ts:153-153 | a run from boot: a restore cut off by a restart that loses the container disk leaves part of a database being served |
| DbReclaim.AccountsDropIff | app/lib/db-reclaim.ts:254-296 | accounts are lost by exactly three steps: a swap or a restore that brings in fewer than are live, and a write through a connection whose file a swap has replaced |
| DbReclaim.DetachedIff | app/lib/db-reclaim.ts:288-288 | a connection comes off its path by exactly one step, a swap while it is open, and stays off until the process restarts |
| DbReclaim.BootPassesNeverDetach | app/lib/db.ts:19-35 | as long as only boots run the pass, it is over before the connection opens and no connection is ever detached |
| DbReclaim.NoAccountIsLost | app/lib/db-reclaim.ts:168-234 | if accounts are recorded only between passes, with no marker standing and through a connection still on its path, and counts succeed, no run loses an account it had or recorded |
| DbReclaim.PassIsARun | app/lib/db-reclaim.ts:137-304 | an uninterrupted pass is a run of the machine's moves |
| DbReclaim.SweepIsReached | app/lib/retention.ts:42-55 | a boot, an open and a sweep reach a pass that runs while the site is served |
| DbReclaim.RecordedAfterASweep | app/lib/retention.ts:53-53 | the sweep runs the pass with the connection open: after its swap an account is recorded into the replaced file and is gone at the next boot |
| DbReclaim.RecordedDuringASweep | app/lib/retention.ts:53-53 | and an account recorded in the middle of the sweep is swapped away |
| DbReclaim.MarkerLeftBehind | app/lib/db-reclaim.ts:290-296 | a marker that cannot be removed rolls a later boot back past accounts recorded since |
| DbReclaim.CountFailed | app/lib/db-reclaim.ts:168-195 | a count that throws guards nothing: an empty compaction is swapped in |
| ContinuousCandles.Continuous | app/lib/continuous-candles.ts:53-100 | the loops draw the specified series, for every input and size |
| ContinuousCandles.FillGap | app/lib/continuous-candles.ts:68-84 | the inner loop inserts as many flat candles as buckets are missing and the cap leaves |
| ContinuousCandles.InsertsWhatIsMissing | app/lib/continuous-candles.ts:38-84 | exactly the missing buckets are inserted, up to 2,000 |
| ContinuousCandles.NothingIsLost | app/lib/continuous-candles.ts:85-100 | the input's candles stand in the series in order with time, close, volume and trades unchanged |
| ContinuousCandles.OnlyFlatsAreAdded | app/lib/continuous-candles.ts:68-84 | what stands between two of them is one candle a bucket, flat at the earlier one's close, with no volume and no trades |
| ContinuousCandles.ValidInValidOut | app/lib/continuous-candles.ts:85-95 | valid candles in, valid candles out |
| ContinuousCandles.SeriesIsContinuous | app/lib/continuous-candles.ts:53-100 | every candle after the first opens at its predecessor's close, with its wick drawn to it, and increasing times stay increasing |
| ContinuousCandles.OneCandleABucket | app/lib/continuous-candles.ts:68-84 | with aligned buckets and an unspent cap consecutive times differ by exactly the size |
| ContinuousCandles.MissingIsConserved | app/lib/continuous-candles.ts:38-84 | a pass leaves missing exactly the buckets the cap made it skip |
| ContinuousCandles.IdempotentIffTheCapHolds | app/lib/continuous-candles.ts:53-100 | a second pass changes nothing if and only if the missing buckets fit the cap |
| Reals.MeanWithin | app/lib/indicators.ts:28-38 | a mean lies within the range of what it averages |
| Reals.MeanMapped | app/lib/indicators.ts:28-38 | the mean of requoted values is the requoted mean |
| Indicators.TrailingSlides | app/lib/indicators.ts:32-35 | adding one close and dropping one turns one window's sum into the next's |
| Indicators.Sma | app/lib/indicators.ts:28-38 | the running sum gives the mean of each full window, at the window's last time; nothing when there are too few bars |
| Indicators.SmaIsTheMean | app/lib/indicators.ts:28-39 | over bars: from the period-th on, at each bar's time, the mean of the last `period` closes |
| Indicators.SmaMoves | app/lib/indicators.ts:28-38 | requoting prices by any line requotes the average |
| Indicators.Seed | app/lib/indicators.ts:46-48 | the recurrence starts from the mean of the first period |
| Indicators.Ema | app/lib/indicators.ts:41-56 | the loop computes the recurrence from its seed |
| Indicators.EmaOfPoints | app/lib/indicators.ts:59-74 | the same over a computed series |
| Indicators.EmaStaysInRange | app/lib/indicators.ts:41-56 | the average never leaves the range of the values behind it |
| Indicators.EmaLagsALine | app/lib/indicators.ts:41-75 | on prices that rise by one step a bar the average lags by exactly half a period less half a bar, at every bar |
| Indicators.EmaMoves | app/lib/indicators.ts:41-56 | requoting prices by any line requotes the average |
| Indicators.EmaRemembersByWeight | app/lib/indicators.ts:41-56 | a close moved by any amount moves every later average by exactly its geometric weight's share of it |
| Indicators.Total | app/lib/indicators.ts:91-92 | the inner loop's sum |
| Indicators.Scatter | app/lib/indicators.ts:95-99 | the inner loop's sum of squared distances |
| Indicators.Spread | app/lib/indicators.ts:90-105 | a window's mean, and the edges that many deviations either side |
| Indicators.Bollinger | app/lib/indicators.ts:83-108 | the middle line is the moving average, point for point, and the bands are its edges |
| Indicators.FewLieOutside | app/lib/indicators.ts:83-108 | whatever the closes, the number of a window's that lie outside its bands times the multiplier squared is at most the period |
| Indicators.BandMoves | app/lib/indicators.ts:83-108 | requoting prices by a rising line requotes the bands |
| Indicators.Vwap | app/lib/indicators.ts:116-127 | the running totals give the average price of all bars so far, and the typical price while nothing has traded |
| Indicators.VwapIs | app/lib/indicators.ts:116-128 | at each bar what has traded so far, at that price, would have come to what it did at the mean of each bar's high, low and close; while nothing has, the bar's own mean |
| Indicators.VwapStaysInRange | app/lib/indicators.ts:116-127 | the average price lies between the lowest low and the highest high so far |
| Indicators.VwapMoves | app/lib/indicators.ts:116-127 | requoting candles by any line requotes it |
| Oscillators.Opening | app/lib/indicators.ts:134-142 | the first loop's mean gain and mean loss |
| Oscillators.Rsi | app/lib/indicators.ts:130-157 | the loops compute the index from Wilder's averages of gains and losses |
| Oscillators.RsiIsTheShare | app/lib/indicators.ts:144-145 | the reading is a hundred less the percentage of movement that was down |
| Oscillators.RsiIsAPercentage | app/lib/indicators.ts:129-157 | it never leaves 0 to 100 |
| Oscillators.RsiIsUnitFree | app/lib/indicators.ts:130-157 | requoting prices by a rising line leaves it fixed |
| Oscillators.RsiMirrorsIff | app/lib/indicators.ts:130-157 | turned upside down a series reads the complement at a bar if and only if a change up to it was not nought, or over a period of one the last change; otherwise it reads a hundred either way |
| Oscillators.FlatAfterARise | app/lib/indicators.ts:144-145 | a rise then a flat bar reads a hundred both ways up over a period of one, and complements over two |
| Macd.Subtract | app/lib/indicators.ts:169-175 | building the map and matching by time gives each point less the later of the others at its time |
| Macd.Compute | app/lib/indicators.ts:166-187 | the three lines, for any bars and periods |
| Macd.LineIsTheGap | app/lib/indicators.ts:166-175 | at distinct times the line is the fast average less the slow at every bar that has both |
| Macd.NoLine | app/lib/indicators.ts:166-175 | and empty when either has no value |
| Macd.HistogramOfCandles | app/lib/indicators.ts:177-186 | the histogram is the line less its signal at each of the signal's times and nowhere else |
| Macd.LinesMove | app/lib/indicators.ts:166-187 | requoting prices scales all three lines by the unit alone |
| LaunchFeed.ComparesByRank | app/components/launch-feed.tsx:196-202 | the market-cap comparator is the comparison of caps with unpriced tokens last, so sorting by it is well defined |
| LaunchFeed.SortSorts | app/components/launch-feed.tsx:640-655 | each lane's sort ranks it, keeps exactly its tokens, and keeps ties in their old order |
| LaunchFeed.Feed.constructor | app/components/launch-feed.tsx:560-600 | the refs as first loaded |
| LaunchFeed.Feed.OnLaunches | app/components/launch-feed.tsx:562-598 | nothing while searching, paused or unloaded; otherwise the new mints, once each and in order, go ahead of the new lane, cut at 100, and are highlighted |
| LaunchFeed.Feed.OnCurves | app/components/launch-feed.tsx:600-661 | merges, regroups, sorts and cuts every lane, and highlights the mints that changed lane |
| LaunchFeed.Feed.Sorted | app/components/launch-feed.tsx:620-661 | each known token into the lane it belongs in, then each lane into its own order |
| LaunchFeed.AdditionsAreNew | app/components/launch-feed.tsx:573-590 | the additions are distinct, not on screen, from the batch, and leave out only what is already there |
| LaunchFeed.LaunchesKeepInv | app/components/launch-feed.tsx:562-598 | a launch batch keeps every mint in at most one place, shows nothing but what was there and the additions, and touches no other lane |
| LaunchFeed.LaunchesFit | app/components/launch-feed.tsx:592-592 | and no lane grows past 100 by it |
| LaunchFeed.LaunchesLandAhead | app/components/launch-feed.tsx:590-594 | the additions stand ahead of the new lane's rows, which keep their order and are cut at the end |
| LaunchFeed.AdditionsAreTheFirst | app/components/launch-feed.tsx:577-588 | of a mint that a batch repeats the first is taken, and in the batch's order |
| LaunchFeed.CurvesKeepInv | app/components/launch-feed.tsx:600-661 | a curve event keeps every mint in at most one place and shows nothing that was not there |
| LaunchFeed.CurvesFit | app/components/launch-feed.tsx:657-661 | and cuts every lane to 100, whatever was loaded |
| LaunchFeed.BelongingPartitions | app/components/launch-feed.tsx:636-643 | the lanes share the known tokens out, each to exactly one |
| LaunchFeed.LaneIsTheTopOfItsOwn | app/components/launch-feed.tsx:640-661 | after a processed curve event a lane is exactly the first 100, in its own order, of the known tokens that belong there, and what it leaves out a full lane outranks |
| LaunchFeed.RowsStandWhereTheyBelong | app/components/launch-feed.tsx:634-639 | whatever stands under graduated is complete, under soon is not and is half way up its curve or more, and under new is neither |
| LaunchFeed.RowsCarryTheBatch | app/components/launch-feed.tsx:1083-1098 | a row is one that was on screen, with the progress and completeness of the last update of its mint in the batch, and its cap where that has one; rows of other mints are untouched |
| LaunchFeed.RowsAreInOrder | app/components/launch-feed.tsx:641-655 | the newest stands first, and under soon and graduated the one worth most, with the unpriced last |
| LaunchFeed.RowsLeaveFullLanes | app/components/launch-feed.tsx:657-661 | a row leaves the screen only where a lane is full |
| LaunchFeed.HighlightsWhatMoved | app/components/launch-feed.tsx:634-665 | a row on screen is highlighted exactly when it was in another lane before |
| LaunchFeed.CurvesSettle | app/components/launch-feed.tsx:640-661 | after it every lane holds only its own tokens, in its own order |
| LaunchFeed.EveryStreamKeepsTheLanes | app/components/launch-feed.tsx:562-661 | over every event stream, from any load whose lanes share no mint, each mint is in at most one lane, no lane is longer than 100 or than it was loaded, and no step forgets the cap of a token it keeps |
| LaunchFeed.CapsAreNeverForgotten | app/components/launch-feed.tsx:1083-1097 | a token that stays on screen through a run never goes from a known market cap to none |
| LaunchFeed.ReplayedCurvesChangeNothing | app/components/launch-feed.tsx:600-661 | a curve event delivered twice is one delivered once |
| Numerals.ConvertBack | app/lib/house-traders.ts:351-364 | changing base and back, counting leading zeros apart, gives the same digits for any digits and any two bases |
| HouseTraders.AlphabetIs | app/lib/house-traders.ts:349-349 | the letters by arithmetic are the literal alphabet |
| HouseTraders.Base58 | app/lib/house-traders.ts:351-364 | the loops compute the specified encoding, and end |
| HouseTraders.WriteLetters | app/lib/house-traders.ts:356-361 | the division loop writes the digits of the number, most significant first |
| HouseTraders.DecodeEncode | app/lib/house-traders.ts:351-364 | decoding an encoding gives the bytes back, for every byte sequence |
| HouseTraders.EncodeDecode | app/lib/house-traders.ts:351-364 | whatever decodes is the encoding of what it decodes to |
| HouseTraders.EncodingIsInjective | app/lib/house-traders.ts:351-370 | no two byte sequences share an address |
| HouseTraders.Sized | app/lib/house-traders.ts:129-147 | the first of eight halvings, the wanted size included, that is worth trading and that the market takes, or nothing when there is none |
| HouseTraders.HalvedIs | app/lib/house-traders.ts:135-145 | the k-th size tried is what was wanted, halved k times and rounded down |
| HouseTraders.FirstTakenIsUnique | app/lib/house-traders.ts:129-147 | there is only one such size |
| HouseTraders.TakenAsItIs | app/lib/house-traders.ts:129-147 | a size the market takes is not halved, and none is enlarged |
| HouseTraders.Exit | app/lib/house-traders.ts:550-596 | what is sold is the first size of the plan that the market takes, or nothing when there is none or it is under an eighth of a partial plan; it is held, and a plan the market takes is sold whole |
| HouseTraders.PlanIs | app/lib/house-traders.ts:549-569 | exactly what is planned: the account's share rounded down, or everything when that is nothing, the cost is dust or under a fifth would be left |
| HouseTraders.ExitLeavesNoTail | app/lib/house-traders.ts:550-580 | an exit plan closes the position or leaves at least a fifth of it and a cost above dust |
| Explore.Workers.constructor | app/lib/explore.ts:401-406 | every worker claims its first index before any fetch is answered |
| Explore.Workers.OnAnswer | app/lib/explore.ts:406-412 | an answer writes its row and claims the next index, or retires the worker |
| Explore.Workers.Rows | app/lib/explore.ts:416-416 | the filtered rows, in index order |
| Explore.PoolRunsKeepInv | app/lib/explore.ts:401-417 | over every interleaving each index below the cursor was claimed once and is written or being fetched by exactly one worker, nothing beyond it is touched, no worker rests while anything is unclaimed, and at most six fetch |
| Explore.EveryAnswerIsProgress | app/lib/explore.ts:406-412 | every answer brings the end one row nearer |
| Explore.NeverStuck | app/lib/explore.ts:401-417 | until every row is written some worker waits on an answer |
| Explore.FinishedInOrder | app/lib/explore.ts:414-417 | once all workers are done the rows are the movers, in order, with no holes |
| Explore.PagesCoverTheTotal | app/lib/explore.ts:578-590 | pages 1 to `pages`, joined, are exactly the first `total` of the ranking |
| Explore.ShowsThePage | app/lib/explore.ts:578-590 | there are as many pages as the ranking fills, at least one and no more than allowed; the page shown is the one asked for or the nearest there is, and its rows are the ranking's from where it starts |
| Explore.NoPageIsEmpty | app/lib/explore.ts:578-590 | whatever page is asked for, what is shown is not empty unless nothing is ranked |
| Explore.FetchPages | app/lib/explore.ts:246-257 | reading in batches gives the listing in page order |
| Explore.ListingIsThePrefix | app/lib/explore.ts:246-257 | where pages are answered from one list of coins, fifty at a time, the listing is that list as far as it has been read |
| Explore.Dedupe | app/lib/explore.ts:224-234 | the loop keeps the first coin of each mint |
| Explore.DedupedEachOnce | app/lib/explore.ts:220-234 | no mint twice, none without a mint, and none lost |
| Explore.DedupedTwice | app/lib/explore.ts:224-234 | deduping again changes nothing |
| Explore.MarketStats | app/lib/explore.ts:327-345 | the loop holds, for each mint, the pair it specifies |
| Explore.HeldIsDeepest | app/lib/explore.ts:339-345 | what is held is a pair of the mint and none of its pairs trades more |
| Explore.HeldIsTheFirst | app/lib/explore.ts:339-345 | and of those that trade as much it is the first that was read |
| Explore.BatchOrderDoesNotMatter | app/lib/explore.ts:311-345 | in whatever order batches answer the volumes are the same, and the changes too unless two pairs tie |
| LaunchStream.Registry.constructor | app/lib/launch-stream.ts:45-53 | nobody holds anything |
| LaunchStream.Registry.TakeStreamSlot | app/lib/launch-stream.ts:124-141 | refused at the caller's limit or everybody's, and otherwise counted |
| LaunchStream.Registry.Release | app/lib/launch-stream.ts:143-152 | once only, lowering the caller's count and dropping it at nought |
| LaunchStream.Registry.OpenStreamCount | app/lib/launch-stream.ts:156-158 | the sum of the counts |
| LaunchStream.RefusedExactlyWhenFull | app/lib/launch-stream.ts:131-136 | a slot is granted if and only if the caller has fewer than three open and everybody fewer than 200 |
| LaunchStream.CountsAreOpenSlots | app/lib/launch-stream.ts:124-158 | after any takes and releases, repeated ones too, each stored count is the caller's open slots, lies in 1 to 3 or is absent, and the sum is all open slots and at most 200 |
| LaunchStream.NothingIsStranded | app/lib/launch-stream.ts:150-151 | once every slot has been given back the registry is empty |
| LaunchStream.ReleaseIsIdempotent | app/lib/launch-stream.ts:141-148 | releasing a slot again changes nothing |
| LaunchStream.TakeThenRelease | app/lib/launch-stream.ts:138-152 | a take and its release leave the registry as it was, entry for entry |
| LaunchStream.RoomAfterRelease | app/lib/launch-stream.ts:131-152 | a caller that gives a slot back can always have one |
| ChartWarm.ChoiceIsFirstOwed | app/lib/chart-warm.ts:168-190 | the answer is owed and nothing before it is; none exactly when nothing listed is owed |
| ChartWarm.Warmer.constructor | app/lib/chart-warm.ts:119-132 | idle, with nothing warmed |
| ChartWarm.Warmer.ChooseMint | app/lib/chart-warm.ts:168-190 | the scan and the deletion loop give that answer and that map |
| ChartWarm.Warmer.OnStart | app/lib/chart-warm.ts:249-256 | a tick that finds the job busy does nothing |
| ChartWarm.Warmer.OnAnswer | app/lib/chart-warm.ts:192-194 | the list is answered by the clock the tick began with |
| ChartWarm.Warmer.OnMark | app/lib/chart-warm.ts:259-264 | the mint is marked before it is fetched |
| ChartWarm.Warmer.OnEnd | app/lib/chart-warm.ts:266-283 | success, failure and timeout all free the job, and the mark stays |
| ChartWarm.WholeTick | app/lib/chart-warm.ts:249-283 | a tick attempts and marks the first mint owed, holds the job against other ticks until the attempt ends, and is freed by either ending, failures counted; with nothing owed it attempts nothing |
| ChartWarm.NullAnswerForgetsTheUnlisted | app/lib/chart-warm.ts:186-189 | when nothing is owed the map forgets every unlisted mint and keeps every listed one's mark |
| ChartWarm.AttemptsAreApart | app/lib/chart-warm.ts:259-264 | over every run, attempts on a mint that stays listed are at least six hours apart and its mark is not forgotten |
| ChartWarm.RotationCoversTheList | app/lib/chart-warm.ts:168-190 | from a cold start the first N ticks inside the re-warm window attempt the N listed mints in order, even if all fail |
| ChartWarm.RotationThenRests | app/lib/chart-warm.ts:186-189 | and the next one attempts nothing |
| PracticeTiers.CreditedFor | app/lib/leaderboard.ts:164-183 | the loops, exact branch included, credit what buying dearest first buys, and nothing for nothing |
| PracticeTiers.SpentDownToTheCheapest | app/lib/leaderboard.ts:175-181 | at any positive prices that is listed tiers, costing at most what was paid, with a leftover below every price |
| PracticeTiers.NoTierBeatsIt | packages/payments/src/store.ts:36-43 | on the table as it stands no tier is worth more than the credit its price adds |
| PracticeTiers.NoBasketBeatsIt | app/lib/leaderboard.ts:173-182 | so nothing that could have been bought with the money credits more: dearest first is the best that could be bought |
| PracticeTiers.AtMostTheBestRate | packages/payments/src/store.ts:36-43 | and the credit is at most the payment at the best tier's rate |
| PracticeTiers.ExactBranchIsRedundant | app/lib/leaderboard.ts:170-171 | an exact tier is what the loop would have bought |
| PracticeTiers.CreditedAsBoughtIff | app/lib/leaderboard.ts:164-183 | the credit of a sum of purchases: never less than they were, exactly what they were if and only if what was bought below each tier from ten SOL up cost less than that tier and there were not five singles, and otherwise a SOL or more too much |
| PracticeTiers.OnePurchaseIsUnstacked | app/lib/leaderboard.ts:166-171 | one tier alone is credited as it is |
| PracticeTiers.StackedPurchasesDrift | app/lib/leaderboard.ts:172-182 | the credit of the price of six singles is that of a ten |
| Payments.Till.Buy | app/app/api/store/intent/route.ts:65-103 | the account is there before the intent, and the intent carries no season |
| Payments.Till.Confirm | app/app/api/pay/confirm/route.ts:83-106 | a purchase at no tier's price, or whose signature is recorded, is answered before any transaction |
| Payments.AnsweredAtOnceIff | app/app/api/pay/confirm/route.ts:83-106 | a confirmation never settles exactly if it is for a purchase at a price no tier has or by a signature that is recorded, and is told which |
| Payments.Till.SettlePayment | packages/db/src/payments.ts:204-320 | the payment and its credit, or neither: a recorded signature gets the first settlement's answer and a missing account rolls the row back |
| Payments.SumPurchases | packages/db/src/seasons.ts:343-376 | the loop sums, by trader and season, the practice purchases whose status is settled |
| Payments.SettledOnce | packages/db/src/payments.ts:176-181 | over every interleaving of confirmations a signature is recorded at most once, and exactly if one confirmation and no other is told that it settled it |
| Payments.CreditsMatchPayments | packages/db/src/payments.ts:267-300 | over every run a free-play balance is the opening one, what trading came to and what the recorded payments bought, to the lamport; whoever has no account has paid for nothing |
| Payments.PurchasedIsNought | packages/db/src/seasons.ts:343-347 | over every run the query behind the all-time board finds no purchase, whatever was bought: settlements are written as verified and it asks for settled ones |
| Payments.PurchasesHaveNoSeason | packages/db/src/seasons.ts:372-375 | nor would asking for verified ones serve: everything paid stands under season nought, and nothing under any season there is |
| Payments.BoughtIffCredited | app/app/api/pay/confirm/route.ts:83-95 | over every run a trader has been credited practice SOL if and only if they paid for some |
| Leaderboard.ValueOf | app/lib/leaderboard.ts:89-99 | the loop sums each holding at its price, or at cost where there is none |
| Leaderboard.ValueIsAtMarket | app/lib/leaderboard.ts:89-98 | for any holdings and prices the value is what the unpriced ones cost and what the priced ones fetch, less under a lamport for each of these |
| Leaderboard.ValueFollowsThePrice | app/lib/leaderboard.ts:184-193 | a price that rises by so many lamports a token raises the value by exactly as many for each token held, whatever they cost |
| Leaderboard.ValueIsMonotone | app/lib/leaderboard.ts:89-99 | a price that rises never lowers an account's value |
| Leaderboard.UnreadableIsAtCost | app/lib/leaderboard.ts:89-99 | where no price can be read the value is what was paid |
| Leaderboard.SignOfReturn | app/lib/leaderboard.ts:196-197 | rounded toward nought, a return shows a loss or a gain exactly from one basis point on, and nothing on no basis |
| Leaderboard.BasisOfPurchases | app/lib/leaderboard.ts:196-196 | given the sum of what was paid, the basis is what the account started with and what was bought, never less, and exactly if the purchases do not stack |
| Leaderboard.PromiseKeptIff | app/lib/leaderboard.ts:126-131 | over every run of sign-ins, purchases, settlements and trades the basis of a free-play row is what it started with and what was bought if and only if nothing was |
| Leaderboard.NeverBelowThePromise | app/lib/leaderboard.ts:126-131 | and the return shown is never below the return on that |
| Leaderboard.BreakEvenReadsWhatWasBought | app/lib/leaderboard.ts:195-197 | an account worth exactly what it started with and bought is shown ten percent for every SOL bought |
| Leaderboard.OneTierBuyerReadsAGain | app/lib/leaderboard.ts:126-131 | such an account is on the board: one tier of any size bought and a SOL of it held at cost reads a gain, of a thousand basis points a SOL, and by what is promised nought |
| Leaderboard.TenIntoElevenReadsAHundredAndTen | app/lib/leaderboard.ts:130-131 | ten SOL bought and turned into eleven reads a hundred and ten percent, and by what is promised five |
| Ranking.ReturnIsMonotone | packages/scoring/src/rank.ts:55-58 | from one start a higher equity never reads a lower return |
| Ranking.ReturnIs | packages/scoring/src/rank.ts:49-58 | the return is the gain in ten-thousandths of the start, rounded toward nought for gains and losses alike |
| Ranking.AheadIff | packages/scoring/src/rank.ts:60-84 | whatever each started with: the higher return, then the larger gain, then the earlier entry, then the name |
| Ranking.AheadIsTotal | packages/scoring/src/rank.ts:66-84 | of two traders one is ahead and not the other |
| Ranking.AheadIsTransitive | packages/scoring/src/rank.ts:66-84 | and being ahead carries over |
| Ranking.RoundingNeverDecides | packages/scoring/src/rank.ts:71-76 | from one starting balance the order is by equity to the lamport, then entry, then name |
| Ranking.RankingIsStrict | packages/scoring/src/rank.ts:86-94 | places are strict, and everybody has one |
| Ranking.AnybodyCanRecompute | packages/scoring/src/rank.ts:60-94 | the same standings in any order give the same places |
| Backtest.Spacing | app/lib/backtest.ts:136-150 | the loops, the sort and the rounding give the worst gap and the median |
| Backtest.GapsSpan | app/lib/backtest.ts:138-141 | the gaps sum to the span |
| Backtest.MedianSplitsTheGaps | app/lib/backtest.ts:143-148 | half the gaps are at most the median and half at least, the rounding included |
| Backtest.MedianIs | app/lib/backtest.ts:143-148 | of an odd number of gaps the middle one, of an even number halfway between the two, half a second up |
| Backtest.MedianWithinWorst | app/lib/backtest.ts:142-149 | the median is at most the worst |
| Backtest.NoHoleIsWider | app/lib/backtest.ts:80-97 | two recorded moments with none between are no further apart than the worst gap |
| Backtest.NeverFurtherThanWorst | app/lib/backtest.ts:80-97 | and no moment of the record is further than that from the last one recorded |
| Backtest.ExitGap | app/lib/backtest.ts:160-167 | the loop gives the distance to the point it stops behind |
| Backtest.ScanFindsNothing | app/lib/backtest.ts:160-167 | there is none when nothing is recorded before the exit |
| Backtest.ScanFindsTheLatest | app/lib/backtest.ts:152-167 | and otherwise it is the latest strictly earlier one, however many share the exit's time |
| Backtest.CheckedIs | app/lib/backtest.ts:242-245 | the checked window holds exactly the points the position was open across, in order |
| Backtest.ExitGapWithinWorst | app/lib/backtest.ts:240-274 | an exit at a recorded moment with an earlier checked one jumped no wider a hole than the worst gap over the stretch it was open |

## Left out

* React rendering, canvas, CSS, wallets, routes, health reports, environment reading, filters
  and number formatting: interface, or true but easy.
* Network fetches, RPC reads, SQL text and SQLite internals are parameters or outcomes of
  steps: any answer, a throw, or a timeout.
* Write-ahead and shared-memory files of the database (`-wal`, `-shm`) are not modelled: a
  file is whole, partial or absent, so a stale journal beside a renamed file is not covered.
* DbReclaim.Host.RecoverIfCorrupt: the `-wal` and `-shm` files renamed beside the database and
  the path it is set aside at are not modelled.
* DbReclaim.AlwaysADatabase: one pass runs at a time. The pass of the first `db()` call and
  the sweep's own can overlap at their awaits, and two overlapping passes are not modelled;
  nor is what a connection open across a restore in place still has of the old file in its
  cache, or the snapshots of accounts that a boot restores from (`app/lib/account-backup.ts`).
* DbReclaim.DetachedIff: one handle stands for the shared connection and for those the client
  opens for its transactions (`packages/db/src/client.ts:68-70`).
* Disk space is a flag of each pass, and compaction may leave any file with any number of
  accounts; which rows retention drops is not part of the model.
* Leaf hashing and the Merkle tree of the commit package; the splitting of a season's prize.
* The random numbers, characters and choice of account of the house traders, their buying
  side, and which tokens they look at: tuning with no stated property.
* Floating-point rounding in the indicators: they are proved over the reals. The square root
  is any function whose values are non-negative roots of non-negative reals. Periods below
  one are modelled where the source tests for them (`sma`, `ema`); `bollinger` and `rsi`,
  which do not, require a period of at least one.
* Indicators.Ema: the source writes the same recurrence twice, over closes and over points;
  here the first calls the second, with the seed and the inner loops in methods of their own.
* Sorting is the standard library's and is modelled as a stable insertion sort; the in-place
  update of the sorted array and its aliasing are not captured.
* Volumes and hourly changes of trading pairs are integers; the order of the calls to
  `stats.set` across batches is any order of the pairs.
* Explore.Workers.OnAnswer: the guard for a missing mover is not modelled, since the list has
  no holes, and a fetch that throws answers with an empty line, as the source has it.
* ChartWarm.Warmer.OnEnd: a warm that times out is abandoned, not cancelled; what it still
  writes is left to the write lock and not modelled here.
* LaunchFeed.Feed.OnCurves: pictures, highlights fading after two seconds and the reload of
  lanes over HTTP are not modelled; a curve update's market cap is an integer where the
  source holds its decimal digits.
* HouseTraders.Exit: the pool, the fees and the account's own reads are behind the verdict of
  the market on a size; only what is decided from it is modelled. The share sold is between
  15 and 100 percent, as the characters have it.
* ExecuteTrade.Desk.CreditPurchase: the payment it settles, and its own refusals, are in
  `Payments`, not here; the account is the one the orders trade on.
* ExecuteTrade.OneWriterKeepsTheBooks: the queue is the order of what was asked for, not the
  promises that hold it; other accounts' writes, which take turns in it, touch none of these
  rows. The position read and the request for the transaction are one step, as no await lies
  between them.
* Payments.Till.SettlePayment: the check of the transaction on chain, the references, expiry
  and the entries that a season payment makes are not modelled; a confirmation starts where
  the payment has been verified.
* Payments.CreditsMatchPayments: one free-play account a trader. Only house accounts start
  over as another generation, and a settlement that finds two refuses as it does for none.
* PracticeTiers.CreditedAsBoughtIff: says nothing of the board, whose sums are of nothing.
* Leaderboard.PromiseKeptIff: free-play rows; balance can be bought for no other season.
* ExecuteTrade.Desk.Resume: idempotency keys, ranked-season checks and what is returned to
  the caller are not modelled; a venue's pool is one reading, whatever it was read from.
* FillEngine.FilledAtTheSecondReading: prices per token for display, and the detail a refusal
  is worded with, are not modelled.
* PracticeTiers.SpentDownToTheCheapest: zero or negative prices, on which the source would not
  end, are outside the table and outside the model.
* Ranking.AnybodyCanRecompute: two standings of one trader are outside it; a season has one.
* Backtest.ExitGapWithinWorst: the replay itself (`packages/sim/src/backtest.ts`) is not part
  of this model; that the exit is at a recorded moment is an assumption of the lemma.
