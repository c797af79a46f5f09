/** The board of movers: its worker pool, its pages, and what it is read from. */
module Explore {
  import opened Fixed
  import opened Wrappers

  type Mint = string

  // ----- The sparkline workers -----

  const SPARK_CONCURRENCY := 6

  datatype Mover = Mover(mint: Mint, rank: int)

  datatype Row = Row(mover: Mover, spark: seq<int>)

  /** A worker waits on one fetch, until there is nothing left to claim. */
  datatype Worker = Fetching(index: nat) | Done

  datatype Pool = Pool(movers: seq<Mover>, cursor: nat, workers: seq<Worker>, out: seq<Option<Row>>)

  function WorkerCount(movers: seq<Mover>): nat {
    if |movers| < SPARK_CONCURRENCY then |movers| else SPARK_CONCURRENCY
  }

  /** Every worker has claimed its first index before any fetch is answered. */
  function Opened(movers: seq<Mover>): Pool {
    Pool(movers, WorkerCount(movers), seq(WorkerCount(movers), i requires 0 <= i < WorkerCount(movers) => Fetching(i)),
         seq(|movers|, i requires 0 <= i < |movers| => None))
  }

  predicate Waits(p: Pool, w: nat) {
    w < |p.workers| && p.workers[w].Fetching? && p.workers[w].index < |p.movers| == |p.out|
  }

  /** A fetch is answered: its row is written and the worker claims the next index. */
  function Answered(p: Pool, w: nat, spark: seq<int>): Pool {
    if !Waits(p, w) then p
    else
      var i := p.workers[w].index;
      var written := p.out[i := Some(Row(p.movers[i], spark))];
      if p.cursor < |p.movers|
      then Pool(p.movers, p.cursor + 1, p.workers[w := Fetching(p.cursor)], written)
      else Pool(p.movers, p.cursor, p.workers[w := Done], written)
  }

  /** The rows that were written, in index order. */
  function Written(out: seq<Option<Row>>): seq<Row> {
    if out == [] then []
    else Written(out[..|out| - 1]) + match out[|out| - 1] { case None => [] case Some(row) => [row] }
  }

  class Workers {
    const movers: seq<Mover>
    var cursor: nat
    var workers: seq<Worker>
    var out: seq<Option<Row>>

    ghost function Model(): Pool
      reads this
    {
      Pool(movers, cursor, workers, out)
    }

    constructor (movers: seq<Mover>)
      ensures Model() == Opened(movers)
    {
      this.movers := movers;
      out := seq(|movers|, i requires 0 <= i < |movers| => None);
      var started: seq<Worker>, claimed := [], 0;
      while |started| < (if |movers| < SPARK_CONCURRENCY then |movers| else SPARK_CONCURRENCY)
        invariant claimed == |started| <= WorkerCount(movers)
        invariant forall i :: 0 <= i < |started| ==> started[i] == Fetching(i)
        decreases WorkerCount(movers) - |started|
      {
        var index := claimed;
        claimed := claimed + 1;
        started := started + [Fetching(index)];
      }
      workers, cursor := started, claimed;
    }

    method OnAnswer(w: nat, spark: seq<int>)
      modifies this
      ensures Model() == Answered(old(Model()), w, spark)
    {
      if w >= |workers| || workers[w].Done? || workers[w].index >= |movers| || |movers| != |out| { return; }
      var index := workers[w].index;
      out := out[index := Some(Row(movers[index], spark))];
      if cursor < |movers| {
        workers := workers[w := Fetching(cursor)];
        cursor := cursor + 1;
      } else {
        workers := workers[w := Done];
      }
    }

    method Rows() returns (rows: seq<Row>)
      ensures rows == Written(out)
    {
      rows := [];
      for i := 0 to |out|
        invariant rows == Written(out[..i])
      {
        assert out[..i + 1][..i] == out[..i];
        if out[i].Some? { rows := rows + [out[i].value]; }
      }
      assert out[..|out|] == out;
    }
  }

  predicate IsFetched(p: Pool, i: nat) {
    exists w :: 0 <= w < |p.workers| && p.workers[w] == Fetching(i)
  }

  /** Each index below the cursor has been claimed once: it is written, or one worker is
      fetching it and only one. Nothing beyond the cursor has been touched, and no worker
      rests while anything is unclaimed. */
  ghost predicate PoolInv(p: Pool) {
    && |p.out| == |p.movers| && |p.workers| == WorkerCount(p.movers) && p.cursor <= |p.movers|
    && (forall w :: 0 <= w < |p.workers| && p.workers[w].Fetching? ==>
          p.workers[w].index < p.cursor && p.out[p.workers[w].index].None?)
    && (forall v, w :: 0 <= v < w < |p.workers| && p.workers[v].Fetching? && p.workers[w].Fetching? ==>
          p.workers[v].index != p.workers[w].index)
    && (forall i :: 0 <= i < p.cursor ==> p.out[i].Some? || IsFetched(p, i))
    && (forall i :: p.cursor <= i < |p.out| ==> p.out[i].None?)
    && (forall i :: 0 <= i < |p.out| && p.out[i].Some? ==> p.out[i].value.mover == p.movers[i])
    && (p.cursor < |p.movers| ==> forall w :: 0 <= w < |p.workers| ==> p.workers[w].Fetching?)
  }

  lemma OpenedKeepsInv(movers: seq<Mover>)
    ensures PoolInv(Opened(movers))
  {
    var p := Opened(movers);
    forall i | 0 <= i < p.cursor
      ensures IsFetched(p, i)
    {
      assert p.workers[i] == Fetching(i);
    }
  }

  lemma StillFetched(p: Pool, next: Pool, w: nat, i: nat)
    requires IsFetched(p, i) && w < |p.workers| && p.workers[w] != Fetching(i)
    requires |next.workers| == |p.workers| && forall v :: 0 <= v < |p.workers| && v != w ==> next.workers[v] == p.workers[v]
    ensures IsFetched(next, i)
  {
    var v :| 0 <= v < |p.workers| && p.workers[v] == Fetching(i);
    assert next.workers[v] == Fetching(i);
  }

  lemma AnsweredKeepsInv(p: Pool, w: nat, spark: seq<int>)
    requires PoolInv(p)
    ensures PoolInv(Answered(p, w, spark))
  {
    if Waits(p, w) {
      var next, written := Answered(p, w, spark), p.workers[w].index;
      forall i | 0 <= i < next.cursor
        ensures next.out[i].Some? || IsFetched(next, i)
      {
        if i == p.cursor {
          assert next.workers[w] == Fetching(i);
        } else if i != written && p.out[i].None? {
          StillFetched(p, next, w, i);
        }
      }
    }
  }

  datatype Answer = Answer(worker: nat, spark: seq<int>)

  function Run(movers: seq<Mover>, es: seq<Answer>): Pool {
    if es == [] then Opened(movers)
    else Answered(Run(movers, es[..|es| - 1]), es[|es| - 1].worker, es[|es| - 1].spark)
  }

  /** However the fetches are answered. */
  lemma {:induction false} PoolRunsKeepInv(movers: seq<Mover>, es: seq<Answer>)
    ensures PoolInv(Run(movers, es)) && Run(movers, es).movers == movers
    ensures |Run(movers, es).workers| <= SPARK_CONCURRENCY
  {
    if es == [] {
      OpenedKeepsInv(movers);
    } else {
      PoolRunsKeepInv(movers, es[..|es| - 1]);
      AnsweredKeepsInv(Run(movers, es[..|es| - 1]), es[|es| - 1].worker, es[|es| - 1].spark);
    }
  }

  function Unwritten(out: seq<Option<Row>>): nat {
    if out == [] then 0 else Unwritten(out[..|out| - 1]) + if out[|out| - 1].None? then 1 else 0
  }

  lemma {:induction false} UnwrittenAfter(out: seq<Option<Row>>, i: nat, row: Row)
    requires i < |out| && out[i].None?
    ensures Unwritten(out[i := Some(row)]) == Unwritten(out) - 1
  {
    var n := |out| - 1;
    if i == n {
      assert out[i := Some(row)][..n] == out[..n];
    } else {
      UnwrittenAfter(out[..n], i, row);
      assert out[i := Some(row)][..n] == out[..n][i := Some(row)];
    }
  }

  /** Every answer to a waiting worker brings the end one row nearer. */
  lemma EveryAnswerIsProgress(p: Pool, w: nat, spark: seq<int>)
    requires PoolInv(p) && Waits(p, w)
    ensures Unwritten(Answered(p, w, spark).out) == Unwritten(p.out) - 1
  {
    UnwrittenAfter(p.out, p.workers[w].index, Row(p.movers[p.workers[w].index], spark));
  }

  /** And until every row is written some worker waits on an answer. */
  lemma NeverStuck(p: Pool)
    requires PoolInv(p) && Unwritten(p.out) > 0
    ensures exists w :: Waits(p, w)
  {
    var i := SomeUnwritten(p.out);
    if p.cursor < |p.movers| {
      assert Waits(p, 0);
    } else {
      assert IsFetched(p, i);
      var w :| 0 <= w < |p.workers| && p.workers[w] == Fetching(i);
      assert Waits(p, w);
    }
  }

  lemma {:induction false} SomeUnwritten(out: seq<Option<Row>>) returns (i: nat)
    requires Unwritten(out) > 0
    ensures i < |out| && out[i].None?
  {
    if out[|out| - 1].None? {
      i := |out| - 1;
    } else {
      i := SomeUnwritten(out[..|out| - 1]);
    }
  }

  lemma {:induction false} WrittenWhole(out: seq<Option<Row>>)
    requires forall i :: 0 <= i < |out| ==> out[i].Some?
    ensures |Written(out)| == |out| && forall i :: 0 <= i < |out| ==> Written(out)[i] == out[i].value
  {
    if out != [] {
      WrittenWhole(out[..|out| - 1]);
    }
  }

  /** When every worker is done the rows are the movers, in order and with no holes. */
  lemma FinishedInOrder(movers: seq<Mover>, es: seq<Answer>)
    requires forall w :: 0 <= w < |Run(movers, es).workers| ==> Run(movers, es).workers[w].Done?
    ensures var rows := Written(Run(movers, es).out);
      |rows| == |movers| && forall i :: 0 <= i < |movers| ==> rows[i].mover == movers[i]
  {
    var p := Run(movers, es);
    PoolRunsKeepInv(movers, es);
    if |movers| > 0 {
      assert p.workers[0].Done?;
    }
    forall i | 0 <= i < |p.out|
      ensures p.out[i].Some?
    {
      assert p.out[i].Some? || IsFetched(p, i);
    }
    WrittenWhole(p.out);
  }

  // ----- Pages of the ranking -----

  /** The source's slice, which stops at the end of the list. */
  function Slice<T>(s: seq<T>, from: nat, to: nat): seq<T>
    requires from <= to
  {
    if from >= |s| then [] else if to >= |s| then s[from..] else s[from..to]
  }

  function CeilDiv(n: nat, d: nat): nat
    requires d > 0
  {
    (n + d - 1) / d
  }

  function PageCount(n: nat, perPage: nat, maxPages: int): (pages: nat)
    requires perPage > 0
    ensures pages >= 1
  {
    var wanted := CeilDiv(n, perPage);
    var capped := if maxPages < wanted then maxPages else wanted;
    if capped < 1 then 1 else capped
  }

  datatype Board<T> = Board(movers: seq<T>, page: nat, pages: nat, total: nat)

  function PageOf<T>(ranked: seq<T>, page: nat, perPage: nat): seq<T>
    requires page >= 1 && perPage > 0
  {
    PageStarts(page, perPage);
    Slice(ranked, (page - 1) * perPage, page * perPage)
  }

  lemma PageStarts(page: nat, perPage: nat)
    requires page >= 1
    ensures 0 <= (page - 1) * perPage && (page - 1) * perPage + perPage == page * perPage
  {
  }

  /** A page of the board; a page out of range is the nearest there is. */
  function Movers<T>(ranked: seq<T>, page: int, perPage: nat, maxPages: int): Board<T>
    requires perPage > 0
  {
    var pages := PageCount(|ranked|, perPage, maxPages);
    var wanted := if page < 1 then 1 else page;
    var current := if wanted > pages then pages else wanted;
    PageStarts(pages, perPage);
    Board(PageOf(ranked, current, perPage), current, pages,
          if |ranked| < pages * perPage then |ranked| else pages * perPage)
  }

  /** Pages 1 to `n`, one after another. */
  function FirstPages<T>(ranked: seq<T>, perPage: nat, maxPages: int, n: nat): seq<T>
    requires perPage > 0
  {
    if n == 0 then [] else FirstPages(ranked, perPage, maxPages, n - 1) + Movers(ranked, n, perPage, maxPages).movers
  }

  lemma SliceOn<T>(s: seq<T>, from: nat, to: nat)
    requires from <= to
    ensures Slice(s, 0, from) + Slice(s, from, to) == Slice(s, 0, to)
  {
  }

  lemma {:induction false} PagesJoin<T>(ranked: seq<T>, perPage: nat, maxPages: int, n: nat)
    requires perPage > 0 && n <= PageCount(|ranked|, perPage, maxPages)
    ensures n * perPage >= 0 && FirstPages(ranked, perPage, maxPages, n) == Slice(ranked, 0, n * perPage)
  {
    if n > 0 {
      PagesJoin(ranked, perPage, maxPages, n - 1);
      PageStarts(n, perPage);
      SliceOn(ranked, (n - 1) * perPage, n * perPage);
    } else {
      assert Slice(ranked, 0, 0) == [];
    }
  }

  /** Turning every page shows exactly the first `total` of the ranking, in order, each
      once. */
  lemma PagesCoverTheTotal<T>(ranked: seq<T>, page: int, perPage: nat, maxPages: int)
    requires perPage > 0
    ensures var board := Movers(ranked, page, perPage, maxPages);
      board.total <= |ranked| && FirstPages(ranked, perPage, maxPages, board.pages) == ranked[..board.total]
  {
    PagesJoin(ranked, perPage, maxPages, PageCount(|ranked|, perPage, maxPages));
  }

  /** There are as many pages as the ranking fills, but one at least and no more than are
      allowed; the one shown is the one asked for, or the nearest there is; and it shows the
      ranking from where it starts. */
  lemma ShowsThePage<T>(ranked: seq<T>, page: int, perPage: nat, maxPages: int, i: nat) returns (from: nat)
    requires perPage > 0 && i < |Movers(ranked, page, perPage, maxPages).movers|
    ensures var board, most := Movers(ranked, page, perPage, maxPages), if maxPages < 1 then 1 else maxPages;
      && 1 <= board.pages <= most && (board.pages - 1) * perPage < |ranked|
      && (board.pages < most ==> |ranked| <= board.pages * perPage)
      && (1 <= page <= board.pages ==> board.page == page)
      && (page < 1 ==> board.page == 1) && (page > board.pages ==> board.page == board.pages)
      && from + perPage == board.page * perPage && from + i < |ranked| && board.movers[i] == ranked[from + i]
  {
    var board, wanted := Movers(ranked, page, perPage, maxPages), CeilDiv(|ranked|, perPage);
    FloorBounds(|ranked| + perPage - 1, perPage);
    PageStarts(board.page, perPage);
    PageStarts(board.pages, perPage);
    if board.pages > 1 {
      StartsWithin(board.pages, wanted, perPage, |ranked|);
    }
    from := (board.page - 1) * perPage;
    hide CeilDiv;
  }

  /** No page on offer is empty, unless nothing is ranked. */
  lemma NoPageIsEmpty<T>(ranked: seq<T>, page: int, perPage: nat, maxPages: int)
    requires perPage > 0 && ranked != []
    ensures Movers(ranked, page, perPage, maxPages).movers != []
  {
    var board := Movers(ranked, page, perPage, maxPages);
    PageStarts(board.page, perPage);
    FloorBounds(|ranked| + perPage - 1, perPage);
    if board.page > 1 {
      StartsWithin(board.page, CeilDiv(|ranked|, perPage), perPage, |ranked|);
    }
  }

  lemma StartsWithin(page: nat, wanted: nat, perPage: nat, n: nat)
    requires 1 <= page <= wanted && wanted * perPage <= n + perPage - 1
    ensures (page - 1) * perPage < n
  {
    assert page * perPage <= wanted * perPage;
    assert (page - 1) * perPage == page * perPage - perPage;
  }

  // ----- The listing -----

  const PAGE_CONCURRENCY := 4
  const PAGE_SIZE := 50

  datatype Coin = Coin(mint: Mint, cap: int)

  /** The listing a page at a time, each page whatever its fetch answered. */
  function Listing(fetch: nat -> seq<Coin>, pages: nat): seq<Coin> {
    if pages == 0 then [] else Listing(fetch, pages - 1) + fetch((pages - 1) * PAGE_SIZE)
  }

  lemma PageAnswered(fetch: nat -> seq<Coin>, all: seq<Coin>, pages: nat)
    requires forall from: nat :: fetch(from) == Slice(all, from, from + 50)
    ensures fetch(50 * pages) == Slice(all, 50 * pages, 50 * (pages + 1))
  {
  }

  /** Where each page is answered with the next fifty of one list, that is the list, as far
      as it has been read. */
  lemma {:induction false} ListingIsThePrefix(fetch: nat -> seq<Coin>, all: seq<Coin>, pages: nat)
    requires forall from: nat :: fetch(from) == Slice(all, from, from + 50)
    ensures Listing(fetch, pages) == Slice(all, 0, 50 * pages)
  {
    if pages > 0 {
      ListingIsThePrefix(fetch, all, pages - 1);
      PageAnswered(fetch, all, pages - 1);
      SliceOn(all, 50 * (pages - 1), 50 * pages);
    } else {
      assert Slice(all, 0, 0) == [];
    }
  }

  /** A few pages at once, but in the order of the listing. */
  method FetchPages(count: nat, fetch: nat -> seq<Coin>) returns (coins: seq<Coin>)
    ensures coins == Listing(fetch, count)
  {
    coins := [];
    var i := 0;
    while i < count
      invariant coins == Listing(fetch, if i < count then i else count)
    {
      var size := if count - i < PAGE_CONCURRENCY then count - i else PAGE_CONCURRENCY;
      var batch: seq<Coin> := [];
      for n := 0 to size
        invariant coins + batch == Listing(fetch, i + n)
      {
        ghost var before := batch;
        batch := batch + fetch((i + n) * PAGE_SIZE);
        assert coins + batch == (coins + before) + fetch((i + n) * PAGE_SIZE);
      }
      coins := coins + batch;
      i := i + PAGE_CONCURRENCY;
    }
  }

  function MintsOf(coins: seq<Coin>): seq<Mint> {
    seq(|coins|, i requires 0 <= i < |coins| => coins[i].mint)
  }

  /** The first coin of each mint, in order; a coin without a mint is no coin. */
  function Deduped(coins: seq<Coin>): seq<Coin> {
    if coins == [] then []
    else
      var before, coin := Deduped(coins[..|coins| - 1]), coins[|coins| - 1];
      if coin.mint == "" || coin.mint in MintsOf(before) then before else before + [coin]
  }

  method Dedupe(coins: seq<Coin>) returns (all: seq<Coin>)
    ensures all == Deduped(coins)
  {
    var seen: set<Mint> := {};
    all := [];
    for i := 0 to |coins|
      invariant all == Deduped(coins[..i])
      invariant forall m :: m in seen <==> m in MintsOf(all)
    {
      assert coins[..i + 1][..i] == coins[..i];
      var coin := coins[i];
      if coin.mint == "" || coin.mint in seen { continue; }
      assert MintsOf(all + [coin]) == MintsOf(all) + [coin.mint];
      seen := seen + {coin.mint};
      all := all + [coin];
    }
    assert coins[..|coins|] == coins;
  }

  ghost predicate EachOnce(coins: seq<Coin>) {
    && (forall i, j :: 0 <= i < j < |coins| ==> coins[i].mint != coins[j].mint)
    && (forall i :: 0 <= i < |coins| ==> coins[i].mint != "")
  }

  lemma MintsSnoc(coins: seq<Coin>, coin: Coin)
    ensures MintsOf(coins + [coin]) == MintsOf(coins) + [coin.mint]
  {
  }

  lemma {:induction false} EachOnceSnoc(coins: seq<Coin>, coin: Coin)
    requires EachOnce(coins) && coin.mint != "" && coin.mint !in MintsOf(coins)
    ensures EachOnce(coins + [coin])
  {
    forall i | 0 <= i < |coins|
      ensures coins[i].mint != coin.mint
    {
      assert MintsOf(coins)[i] == coins[i].mint;
    }
  }

  /** No mint twice on the board, and none lost. */
  lemma {:induction false} DedupedEachOnce(coins: seq<Coin>, mint: Mint)
    ensures EachOnce(Deduped(coins))
    ensures mint in MintsOf(Deduped(coins)) <==> mint in MintsOf(coins) && mint != ""
  {
    if coins != [] {
      var front, coin := coins[..|coins| - 1], coins[|coins| - 1];
      assert coins == front + [coin];
      DedupedEachOnce(front, mint);
      MintsSnoc(front, coin);
      MintsSnoc(Deduped(front), coin);
      if coin.mint != "" && coin.mint !in MintsOf(Deduped(front)) {
        EachOnceSnoc(Deduped(front), coin);
      }
    }
  }

  /** What has no repeats is left alone, so deduping again changes nothing. */
  lemma {:induction false} DedupedOfEachOnce(coins: seq<Coin>)
    requires EachOnce(coins)
    ensures Deduped(coins) == coins
  {
    if coins != [] {
      var front, coin := coins[..|coins| - 1], coins[|coins| - 1];
      DedupedOfEachOnce(front);
      forall i | 0 <= i < |front|
        ensures MintsOf(front)[i] != coin.mint
      {
        assert coins[i].mint != coins[|coins| - 1].mint;
      }
      assert coins == front + [coin];
    }
  }

  lemma DedupedTwice(coins: seq<Coin>)
    ensures Deduped(Deduped(coins)) == Deduped(coins)
  {
    DedupedEachOnce(coins, "");
    DedupedOfEachOnce(Deduped(coins));
  }

  // ----- The deepest pair of each token -----

  datatype Pair = Pair(mint: Mint, change: Option<int>, volume: int)

  datatype Stat = Stat(change: Option<int>, volume: int)

  /** The pair held for a mint after these have been read. */
  function Deepest(pairs: seq<Pair>, mint: Mint): Option<Stat> {
    if pairs == [] then None
    else
      var held, last := Deepest(pairs[..|pairs| - 1], mint), pairs[|pairs| - 1];
      if last.mint == mint && mint != "" && (held.None? || last.volume > held.value.volume)
      then Some(Stat(last.change, last.volume))
      else held
  }

  method MarketStats(pairs: seq<Pair>) returns (stats: map<Mint, Stat>)
    ensures forall m :: m in stats <==> Deepest(pairs, m).Some?
    ensures forall m :: m in stats ==> stats[m] == Deepest(pairs, m).value
  {
    stats := map[];
    for i := 0 to |pairs|
      invariant forall m :: m in stats <==> Deepest(pairs[..i], m).Some?
      invariant forall m :: m in stats ==> stats[m] == Deepest(pairs[..i], m).value
    {
      assert pairs[..i + 1][..i] == pairs[..i];
      var pair := pairs[i];
      if pair.mint == "" { continue; }
      if pair.mint !in stats || pair.volume > stats[pair.mint].volume {
        stats := stats[pair.mint := Stat(pair.change, pair.volume)];
      }
    }
    assert pairs[..|pairs|] == pairs;
  }

  /** What is held is a pair of the mint, and no pair of the mint trades more. */
  lemma {:induction false} HeldIsDeepest(pairs: seq<Pair>, mint: Mint, i: nat)
    requires i < |pairs| && pairs[i].mint == mint && mint != ""
    ensures var held := Deepest(pairs, mint);
      held.Some? && pairs[i].volume <= held.value.volume && Pair(mint, held.value.change, held.value.volume) in pairs
  {
    var front := pairs[..|pairs| - 1];
    assert pairs == front + [pairs[|pairs| - 1]];
    if i < |front| {
      HeldIsDeepest(front, mint, i);
    } else if Deepest(front, mint).Some? {
      var j := SomePair(front, mint);
      HeldIsDeepest(front, mint, j);
    }
  }

  /** Of the deepest pairs it is the first that was read. */
  lemma {:induction false} HeldIsTheFirst(pairs: seq<Pair>, mint: Mint) returns (k: nat)
    requires Deepest(pairs, mint).Some?
    ensures k < |pairs| && pairs[k].mint == mint && Deepest(pairs, mint) == Some(Stat(pairs[k].change, pairs[k].volume))
    ensures forall j :: 0 <= j < k && pairs[j].mint == mint ==> pairs[j].volume < pairs[k].volume
  {
    var front, last := pairs[..|pairs| - 1], |pairs| - 1;
    var i := SomePair(pairs, mint);
    if Deepest(front, mint).Some? && Deepest(pairs, mint) == Deepest(front, mint) && (pairs[last].mint != mint || pairs[last].volume <= Deepest(front, mint).value.volume) {
      k := HeldIsTheFirst(front, mint);
    } else {
      k := last;
      forall j | 0 <= j < k && pairs[j].mint == mint
        ensures pairs[j].volume < pairs[k].volume
      {
        HeldIsDeepest(front, mint, j);
      }
    }
  }

  lemma {:induction false} SomePair(pairs: seq<Pair>, mint: Mint) returns (i: nat)
    requires Deepest(pairs, mint).Some?
    ensures i < |pairs| && pairs[i].mint == mint && mint != ""
  {
    if Deepest(pairs[..|pairs| - 1], mint).Some? {
      i := SomePair(pairs[..|pairs| - 1], mint);
    } else {
      i := |pairs| - 1;
    }
  }

  /** Batches may answer in any order: the volume held is the same, and so is the change
      unless two pairs of the mint tie for it. */
  lemma BatchOrderDoesNotMatter(pairs: seq<Pair>, others: seq<Pair>, mint: Mint)
    requires forall p :: p in pairs <==> p in others
    ensures Deepest(pairs, mint).Some? <==> Deepest(others, mint).Some?
    ensures Deepest(pairs, mint).Some? ==>
      var one, other := Deepest(pairs, mint).value, Deepest(others, mint).value;
      && one.volume == other.volume
      && (one.change != other.change ==>
            Pair(mint, one.change, one.volume) in pairs && Pair(mint, other.change, one.volume) in pairs)
  {
    HeldInBoth(pairs, others, mint);
    HeldInBoth(others, pairs, mint);
  }

  lemma HeldInBoth(pairs: seq<Pair>, others: seq<Pair>, mint: Mint)
    requires forall p :: p in pairs ==> p in others
    ensures Deepest(pairs, mint).Some? ==>
      var held := Deepest(pairs, mint).value;
      && Pair(mint, held.change, held.volume) in pairs
      && Deepest(others, mint).Some? && held.volume <= Deepest(others, mint).value.volume
  {
    if Deepest(pairs, mint).Some? {
      var i := SomePair(pairs, mint);
      HeldIsDeepest(pairs, mint, i);
      var held := Deepest(pairs, mint).value;
      var p := Pair(mint, held.change, held.volume);
      assert p in others;
      var j :| 0 <= j < |others| && others[j] == p;
      HeldIsDeepest(others, mint, j);
    }
  }
}
