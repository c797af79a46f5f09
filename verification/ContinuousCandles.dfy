/** Turning stored candles into a series without holes: empty buckets held flat at the
    last close, every candle opened where the one before it closed. */
module ContinuousCandles {
  import opened Wrappers

  /** Prices are the scaled integers the source carries as digit strings. */
  datatype Candle = Candle(time: int, open: int, high: int, low: int, close: int, volume: int, trades: int)

  const MAX_FILLED: nat := 2_000

  function Max(a: int, b: int): int { if a >= b then a else b }
  function Min(a: int, b: int): int { if a <= b then a else b }

  function Flat(time: int, price: int): Candle {
    Candle(time, price, price, price, price, 0, 0)
  }

  /** A stored candle opened at `open`, widened to take it in. */
  function Stitched(c: Candle, open: int): Candle {
    c.(open := open, high := Max(c.high, open), low := Min(c.low, open))
  }

  /** The start of the n-th bucket after `last`. */
  function Bucket(last: int, size: nat, n: nat): int {
    if n == 0 then last else Bucket(last, size, n - 1) + size
  }

  /** The flat candles for the first `n` buckets after `last`. */
  function Flats(last: int, size: nat, price: int, n: nat): seq<Candle> {
    if n == 0 then [] else Flats(last, size, price, n - 1) + [Flat(Bucket(last, size, n), price)]
  }

  /** How many bucket starts after `last` come before `next`. */
  function Missing(last: int, next: int, size: nat): nat
    requires size > 0
    decreases next - last
  {
    if last + size >= next then 0 else 1 + Missing(last + size, next, size)
  }

  /** How many buckets the first `k` candles leave empty between them. */
  function AllMissing(cs: seq<Candle>, size: nat, k: nat): nat
    requires size > 0 && k <= |cs|
  {
    if k <= 1 then 0 else AllMissing(cs, size, k - 1) + Missing(cs[k - 2].time, cs[k - 1].time, size)
  }

  /** What the cap has let through ahead of candle `k`. */
  function Spent(cs: seq<Candle>, size: nat, k: nat): nat
    requires size > 0 && k <= |cs|
  {
    Min(AllMissing(cs, size, k), MAX_FILLED)
  }

  /** A gap of `n` flat candles and the candle that ends it. */
  function Part(before: Candle, c: Candle, size: nat, n: nat): seq<Candle> {
    Flats(before.time, size, before.close, n) + [Stitched(c, before.close)]
  }

  /** The series drawn from the first `k` candles: the missing buckets are filled from the
      left, until MAX_FILLED of them are. */
  function Series(cs: seq<Candle>, size: nat, k: nat): seq<Candle>
    requires size > 0 && k <= |cs|
  {
    if k == 0 then []
    else if k == 1 then [Stitched(cs[0], cs[0].open)]
    else Series(cs, size, k - 1) + Part(cs[k - 2], cs[k - 1], size, Spent(cs, size, k) - Spent(cs, size, k - 1))
  }

  function ContinuousOf(cs: seq<Candle>, size: int): seq<Candle> {
    if size <= 0 then cs else Series(cs, size, |cs|)
  }

  // ----- The loops -----

  method Continuous(candles: seq<Candle>, size: int) returns (out: seq<Candle>)
    ensures out == ContinuousOf(candles, size)
  {
    if |candles| == 0 || size <= 0 { return candles; }
    out := [];
    var prevClose: Option<int> := None;
    var inserted := 0;
    for k := 0 to |candles|
      invariant out == Series(candles, size, k) && inserted == Spent(candles, size, k)
      invariant prevClose == if k == 0 then None else Some(candles[k - 1].close)
    {
      var candle := candles[k];
      SeriesEnd(candles, size, k);
      if prevClose.Some? && inserted < MAX_FILLED {
        var lastTime := out[|out| - 1].time;
        out, inserted := FillGap(out, inserted, lastTime, candle.time, size, prevClose.value);
      }
      var open := prevClose.GetOr(candle.open);
      out := out + [Candle(candle.time, open, Max(candle.high, open), Min(candle.low, open),
                           candle.close, candle.volume, candle.trades)];
      prevClose := Some(candle.close);
    }
  }

  /** The inner loop: one flat candle a bucket, as far as the cap allows. */
  method FillGap(before: seq<Candle>, spent: nat, lastTime: int, until: int, size: nat, price: int)
    returns (out: seq<Candle>, inserted: nat)
    requires size > 0 && spent <= MAX_FILLED
    ensures inserted == Min(spent + Missing(lastTime, until, size), MAX_FILLED)
    ensures out == before + Flats(lastTime, size, price, inserted - spent)
  {
    out, inserted := before, spent;
    var time := lastTime + size;
    while time < until && inserted < MAX_FILLED
      invariant spent <= inserted <= MAX_FILLED && time == Bucket(lastTime, size, inserted - spent) + size
      invariant Missing(lastTime, until, size) == inserted - spent + Missing(time - size, until, size)
      invariant out == before + Flats(lastTime, size, price, inserted - spent)
      decreases MAX_FILLED - inserted
    {
      out := out + [Flat(time, price)];
      inserted := inserted + 1;
      time := time + size;
    }
  }

  /** The series so far ends with the last candle it took in. */
  lemma SeriesEnd(cs: seq<Candle>, size: nat, k: nat)
    requires size > 0 && k <= |cs|
    ensures k > 0 ==> Series(cs, size, k) != []
    ensures k > 0 ==>
      Series(cs, size, k)[|Series(cs, size, k)| - 1] == Stitched(cs[k - 1], if k == 1 then cs[0].open else cs[k - 2].close)
  {
  }

  // ----- What the series promises -----

  lemma {:induction false} FlatsAt(last: int, size: nat, price: int, n: nat)
    ensures |Flats(last, size, price, n)| == n
    ensures forall i :: 0 <= i < n ==> Flats(last, size, price, n)[i] == Flat(Bucket(last, size, i + 1), price)
  {
    if n > 0 {
      FlatsAt(last, size, price, n - 1);
    }
  }

  lemma {:induction false} BucketIs(last: int, size: nat, n: nat)
    ensures Bucket(last, size, n) == last + n * size
  {
    if n > 0 {
      BucketIs(last, size, n - 1);
      assert n * size == (n - 1) * size + size;
    }
  }

  lemma {:induction false} SeriesLength(cs: seq<Candle>, size: nat, k: nat)
    requires size > 0 && k <= |cs|
    ensures |Series(cs, size, k)| == k + Spent(cs, size, k)
  {
    if k > 1 {
      SeriesLength(cs, size, k - 1);
      FlatsAt(cs[k - 2].time, size, cs[k - 2].close, Spent(cs, size, k) - Spent(cs, size, k - 1));
    }
  }

  /** Exactly the missing buckets are inserted, up to the cap. */
  lemma InsertsWhatIsMissing(cs: seq<Candle>, size: nat)
    requires size > 0
    ensures |ContinuousOf(cs, size)| == |cs| + Min(AllMissing(cs, size, |cs|), 2_000)
  {
    SeriesLength(cs, size, |cs|);
  }

  /** Where candle `k` of the input stands in the series. */
  function Place(cs: seq<Candle>, size: nat, k: nat): nat
    requires size > 0 && k < |cs|
  {
    k + Spent(cs, size, k + 1)
  }

  lemma {:induction false} SeriesGrows(cs: seq<Candle>, size: nat, j: nat, k: nat)
    requires size > 0 && j <= k <= |cs|
    ensures |Series(cs, size, j)| <= |Series(cs, size, k)|
    ensures Series(cs, size, k)[..|Series(cs, size, j)|] == Series(cs, size, j)
    decreases k
  {
    if j < k {
      SeriesGrows(cs, size, j, k - 1);
      assert k > 1 ==> Series(cs, size, k)[..|Series(cs, size, k - 1)|] == Series(cs, size, k - 1);
    }
  }

  /** Nothing is lost: the input's candles stand in the series in order, with their time,
      close, volume and trades. */
  lemma NothingIsLost(cs: seq<Candle>, size: nat, k: nat)
    requires size > 0 && k < |cs|
    ensures Place(cs, size, k) < |ContinuousOf(cs, size)|
    ensures var kept, c := ContinuousOf(cs, size)[Place(cs, size, k)], cs[k];
      kept.time == c.time && kept.close == c.close && kept.volume == c.volume && kept.trades == c.trades
    ensures k > 0 ==> Place(cs, size, k - 1) < Place(cs, size, k)
    ensures k == |cs| - 1 ==> Place(cs, size, k) == |ContinuousOf(cs, size)| - 1
  {
    SpentGrows(cs, size, k);
    SeriesLength(cs, size, k + 1);
    SeriesLength(cs, size, |cs|);
    SeriesEnd(cs, size, k + 1);
    hide Series, Spent;
    PrefixAt(cs, size, k + 1, Place(cs, size, k));
  }

  lemma SpentGrows(cs: seq<Candle>, size: nat, k: nat)
    requires size > 0 && k < |cs|
    ensures Spent(cs, size, k) <= Spent(cs, size, k + 1)
  {
  }

  lemma FlatsOfPart(before: seq<Candle>, c: Candle, next: Candle, size: nat, n: nat, i: nat)
    requires |before| <= i < |before| + n
    ensures i < |before + Part(c, next, size, n)|
    ensures (before + Part(c, next, size, n))[i] == Flat(Bucket(c.time, size, i - |before| + 1), c.close)
  {
    FlatsAt(c.time, size, c.close, n);
  }

  lemma SeriesStep(cs: seq<Candle>, size: nat, k: nat)
    requires size > 0 && 0 < k < |cs|
    ensures Spent(cs, size, k) <= Spent(cs, size, k + 1)
    ensures Series(cs, size, k + 1)
         == Series(cs, size, k) + Part(cs[k - 1], cs[k], size, Spent(cs, size, k + 1) - Spent(cs, size, k))
  {
  }

  /** And what stands between two of them is a flat candle at the earlier one's close, one
      a bucket, in which nothing traded. */
  lemma OnlyFlatsAreAdded(cs: seq<Candle>, size: nat, k: nat, i: nat)
    requires size > 0 && 0 < k < |cs| && Place(cs, size, k - 1) < i < Place(cs, size, k)
    ensures i < |ContinuousOf(cs, size)|
    ensures var c, close := ContinuousOf(cs, size)[i], cs[k - 1].close;
      && c.time == cs[k - 1].time + (i - Place(cs, size, k - 1)) * size
      && c.open == close && c.high == close && c.low == close && c.close == close
      && c.volume == 0 && c.trades == 0
  {
    SeriesLength(cs, size, k);
    SeriesStep(cs, size, k);
    BucketIs(cs[k - 1].time, size, i - Place(cs, size, k - 1));
    hide Series, Spent, Flats, Bucket, ContinuousOf;
    FlatsOfPart(Series(cs, size, k), cs[k - 1], cs[k], size, Spent(cs, size, k + 1) - Spent(cs, size, k), i);
    PrefixAt(cs, size, k + 1, i);
  }

  lemma PrefixAt(cs: seq<Candle>, size: nat, k: nat, i: nat)
    requires size > 0 && k <= |cs| && i < |Series(cs, size, k)|
    ensures i < |ContinuousOf(cs, size)| && ContinuousOf(cs, size)[i] == Series(cs, size, k)[i]
  {
    SeriesGrows(cs, size, k, |cs|);
    var upTo := Series(cs, size, k);
    assert ContinuousOf(cs, size)[..|upTo|][i] == upTo[i];
  }

  predicate Valid(c: Candle) {
    c.low <= c.open <= c.high && c.low <= c.close <= c.high
  }

  /** Valid candles in, valid candles out. */
  lemma {:induction false} ValidInValidOut(cs: seq<Candle>, size: nat, k: nat)
    requires size > 0 && k <= |cs| && forall i :: 0 <= i < |cs| ==> Valid(cs[i])
    ensures forall i :: 0 <= i < |Series(cs, size, k)| ==> Valid(Series(cs, size, k)[i])
  {
    if k > 1 {
      ValidInValidOut(cs, size, k - 1);
      FlatsAt(cs[k - 2].time, size, cs[k - 2].close, Spent(cs, size, k) - Spent(cs, size, k - 1));
    }
  }

  // ----- Neighbours in the series -----

  /** `b` opens at `a`'s close, and its wick takes that open in. */
  predicate Joined(a: Candle, b: Candle) {
    b.open == a.close && b.low <= b.open <= b.high
  }

  /** Neighbours in the gap of `n` flat candles between `c` and `next`: the second is its
      flat candle `step + 1`, or the candle that ends it. */
  predicate Apart(a: Candle, b: Candle, c: Candle, next: Candle, size: nat, n: nat, step: nat) {
    && step <= n
    && a.time == Bucket(c.time, size, step) && a.close == c.close
    && b == if step < n then Flat(Bucket(c.time, size, step + 1), c.close) else Stitched(next, c.close)
  }

  /** Two neighbours lie in the gap ahead of some candle `j`. */
  predicate InGap(cs: seq<Candle>, size: nat, a: Candle, b: Candle, j: nat, step: nat)
    requires size > 0
  {
    0 < j < |cs| && Apart(a, b, cs[j - 1], cs[j], size, Spent(cs, size, j + 1) - Spent(cs, size, j), step)
  }

  lemma InPart(before: seq<Candle>, c: Candle, next: Candle, size: nat, n: nat, i: nat)
    requires before != [] && before[|before| - 1].time == c.time && before[|before| - 1].close == c.close
    requires |before| <= i + 1 < |before + Part(c, next, size, n)|
    ensures var all := before + Part(c, next, size, n);
      Apart(all[i], all[i + 1], c, next, size, n, i + 1 - |before|)
  {
    FlatsAt(c.time, size, c.close, n);
  }

  lemma {:induction false} Locate(cs: seq<Candle>, size: nat, k: nat, i: nat) returns (j: nat, step: nat)
    requires size > 0 && k <= |cs| && i + 1 < |Series(cs, size, k)|
    ensures InGap(cs, size, Series(cs, size, k)[i], Series(cs, size, k)[i + 1], j, step)
  {
    assert k > 1;
    SeriesEnd(cs, size, k - 1);
    SeriesStep(cs, size, k - 1);
    hide Series, Spent, Part, Apart;
    var before := Series(cs, size, k - 1);
    if i + 1 < |before| {
      j, step := Locate(cs, size, k - 1, i);
    } else {
      j, step := k - 1, i + 1 - |before|;
      InPart(before, cs[k - 2], cs[k - 1], size, Spent(cs, size, k) - Spent(cs, size, k - 1), i);
    }
  }

  /** Filling `n` of the missing buckets stays short of `next` and leaves the others. */
  lemma {:induction false} FillingLeaves(last: int, next: int, size: nat, n: nat)
    requires size > 0 && n <= Missing(last, next, size)
    ensures Missing(Bucket(last, size, n), next, size) == Missing(last, next, size) - n
    ensures n > 0 || last < next ==> Bucket(last, size, n) < next
  {
    if n > 0 {
      FillingLeaves(last, next, size, n - 1);
    }
  }

  predicate Increasing(cs: seq<Candle>) {
    forall k :: 0 < k < |cs| ==> cs[k - 1].time < cs[k].time
  }

  /** Every candle after the first opens at its predecessor's close, and strictly
      increasing times stay strictly increasing. */
  lemma SeriesIsContinuous(cs: seq<Candle>, size: nat, i: nat)
    requires size > 0 && i + 1 < |ContinuousOf(cs, size)|
    ensures var out := ContinuousOf(cs, size);
      Joined(out[i], out[i + 1]) && (Increasing(cs) ==> out[i].time < out[i + 1].time)
  {
    var j, step := Locate(cs, size, |cs|, i);
    if Increasing(cs) {
      FillingLeaves(cs[j - 1].time, cs[j].time, size, step);
    }
  }

  lemma {:induction false} MissingGrows(cs: seq<Candle>, size: nat, j: nat, k: nat)
    requires size > 0 && j <= k <= |cs|
    ensures AllMissing(cs, size, j) <= AllMissing(cs, size, k)
    decreases k
  {
    if j < k {
      MissingGrows(cs, size, j, k - 1);
    }
  }

  /** All times are whole buckets apart. */
  predicate Aligned(cs: seq<Candle>, size: nat)
    requires size > 0
  {
    forall k :: 0 < k < |cs| ==> (cs[k].time - cs[k - 1].time) % size == 0
  }

  lemma BeforeTheNext(last: int, next: int, size: nat)
    requires size > 0 && last < next && (next - last) % size == 0
    ensures Bucket(last, size, Missing(last, next, size)) + size == next
  {
    var n := Missing(last, next, size);
    FillingLeaves(last, next, size, n);
    assert Missing(Bucket(last, size, n), next, size) == 0;
    BucketIs(last, size, n);
    hide Missing, Bucket;
    WholeBuckets(next - last, size, n);
  }

  lemma SpentIsMissing(cs: seq<Candle>, size: nat, j: nat)
    requires size > 0 && 0 < j < |cs| && AllMissing(cs, size, |cs|) <= MAX_FILLED
    ensures Spent(cs, size, j + 1) - Spent(cs, size, j) == Missing(cs[j - 1].time, cs[j].time, size)
  {
    MissingGrows(cs, size, j, |cs|);
    MissingGrows(cs, size, j + 1, |cs|);
  }

  /** With whole buckets and the cap unspent there are no holes: one candle a bucket. */
  lemma OneCandleABucket(cs: seq<Candle>, size: nat, i: nat)
    requires size > 0 && Increasing(cs) && Aligned(cs, size) && AllMissing(cs, size, |cs|) <= MAX_FILLED
    requires i + 1 < |ContinuousOf(cs, size)|
    ensures ContinuousOf(cs, size)[i + 1].time == ContinuousOf(cs, size)[i].time + size
  {
    var j, step := Locate(cs, size, |cs|, i);
    SpentIsMissing(cs, size, j);
    hide Series, Spent, AllMissing, Missing;
    BeforeTheNext(cs[j - 1].time, cs[j].time, size);
  }

  lemma WholeBuckets(span: int, size: int, n: int)
    requires size > 0 && span % size == 0 && n * size < span <= n * size + size
    ensures span == n * size + size
  {
    var q := span / size;
    assert span == q * size;
    SignOfProduct(q - n, size);
    SignOfProduct(q - n - 1, size);
    assert (q - n) * size == span - n * size;
    assert (q - n - 1) * size == span - n * size - size;
  }

  lemma SignOfProduct(a: int, b: int)
    requires b > 0
    ensures a > 0 ==> a * b > 0
    ensures a <= 0 ==> a * b <= 0
  {
  }

  // ----- A second pass -----

  lemma {:induction false} MissingOfPrefix(cs: seq<Candle>, ds: seq<Candle>, size: nat, k: nat)
    requires size > 0 && k <= |cs| && k <= |ds| && forall i :: 0 <= i < k ==> cs[i].time == ds[i].time
    ensures AllMissing(cs, size, k) == AllMissing(ds, size, k)
  {
    if k > 1 {
      MissingOfPrefix(cs, ds, size, k - 1);
    }
  }

  /** Appending a candle adds what is missing before it. */
  lemma MissingOfSnoc(cs: seq<Candle>, c: Candle, size: nat)
    requires size > 0 && cs != []
    ensures AllMissing(cs + [c], size, |cs| + 1) == AllMissing(cs, size, |cs|) + Missing(cs[|cs| - 1].time, c.time, size)
  {
    MissingOfPrefix(cs + [c], cs, size, |cs|);
  }

  lemma {:induction false} FlatsMissNothing(before: seq<Candle>, size: nat, price: int, n: nat)
    requires size > 0 && before != []
    ensures var last := before[|before| - 1].time;
      var longer := before + Flats(last, size, price, n);
      && AllMissing(longer, size, |longer|) == AllMissing(before, size, |before|)
      && longer[|longer| - 1].time == Bucket(last, size, n)
  {
    var last := before[|before| - 1].time;
    if n == 0 {
      assert before + Flats(last, size, price, 0) == before;
    } else {
      FlatsMissNothing(before, size, price, n - 1);
      var shorter, flat := before + Flats(last, size, price, n - 1), Flat(Bucket(last, size, n), price);
      MissingOfSnoc(shorter, flat, size);
      assert before + Flats(last, size, price, n) == shorter + [flat];
    }
  }

  lemma PartMisses(before: seq<Candle>, next: int, c: Candle, size: nat, price: int, n: nat)
    requires size > 0 && before != [] && c.time == next && n <= Missing(before[|before| - 1].time, next, size)
    ensures var last := before[|before| - 1].time;
      var longer := before + Flats(last, size, price, n) + [c];
      AllMissing(longer, size, |longer|) == AllMissing(before, size, |before|) + Missing(last, next, size) - n
  {
    hide AllMissing, Missing, Flats, Bucket;
    var last := before[|before| - 1].time;
    FlatsMissNothing(before, size, price, n);
    FillingLeaves(last, next, size, n);
    MissingOfSnoc(before + Flats(last, size, price, n), c, size);
  }

  /** A pass leaves exactly the missing buckets it did not insert. */
  lemma {:induction false} MissingIsConserved(cs: seq<Candle>, size: nat, k: nat)
    requires size > 0 && k <= |cs|
    ensures AllMissing(Series(cs, size, k), size, |Series(cs, size, k)|) == AllMissing(cs, size, k) - Spent(cs, size, k)
  {
    if k > 1 {
      MissingIsConserved(cs, size, k - 1);
      SeriesEnd(cs, size, k - 1);
      var before, n := Series(cs, size, k - 1), Spent(cs, size, k) - Spent(cs, size, k - 1);
      var last, next, price := cs[k - 2].time, cs[k - 1].time, cs[k - 2].close;
      var filled, c := before + Flats(last, size, price, n), Stitched(cs[k - 1], price);
      assert Series(cs, size, k) == filled + [c];
      hide Series, Flats, Bucket, AllMissing, Missing;
      PartMisses(before, next, c, size, price, n);
    }
  }

  /** A joined series without missing buckets is left alone. */
  lemma {:induction false} NothingToDo(cs: seq<Candle>, size: nat, k: nat)
    requires size > 0 && k <= |cs| && AllMissing(cs, size, k) == 0
    requires forall i :: 0 < i < |cs| ==> Joined(cs[i - 1], cs[i])
    requires cs != [] ==> cs[0].low <= cs[0].open <= cs[0].high
    ensures Series(cs, size, k) == cs[..k]
  {
    if k > 1 {
      NothingToDo(cs, size, k - 1);
      assert Joined(cs[k - 1 - 1], cs[k - 1]);
    }
  }

  /** Drawing the series again changes nothing exactly when the missing buckets fit the
      cap; when they do not, a second pass goes on inserting where the first gave up. */
  lemma IdempotentIffTheCapHolds(cs: seq<Candle>, size: nat)
    requires size > 0
    ensures ContinuousOf(ContinuousOf(cs, size), size) == ContinuousOf(cs, size)
       <==> AllMissing(cs, size, |cs|) <= MAX_FILLED
  {
    var out := ContinuousOf(cs, size);
    MissingIsConserved(cs, size, |cs|);
    if AllMissing(cs, size, |cs|) > MAX_FILLED {
      InsertsWhatIsMissing(out, size);
    } else if cs != [] {
      SeriesGrows(cs, size, 1, |cs|);
      assert out[..1] == Series(cs, size, 1);
      forall i | 0 < i < |out|
        ensures Joined(out[i - 1], out[i])
      {
        SeriesIsContinuous(cs, size, i - 1);
      }
      NothingToDo(out, size, |out|);
    }
  }
}
