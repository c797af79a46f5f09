/** Admission of chart backfills: a concurrency cap, a queue of deferred mints, the
    freshness window and the hand-over of a freed slot. */
module ChartBackfill {
  import opened Recency

  type Mint = string

  const SETTLED_MAX := 5_000
  const CHARTED_MAX := 512
  const REFRESH_MS := 8 * 60 * 1_000

  /** The module-level collections. `settled` and `charted` list their keys in
      insertion order; `settledAt` holds the values of the `settled` map. */
  datatype State = State(
    cap: nat,
    running: set<Mint>,
    pending: seq<Mint>,
    settled: seq<Mint>,
    settledAt: map<Mint, int>,
    charted: seq<Mint>
  )

  function Cap(dedicated: bool): nat {
    if dedicated then 6 else 2
  }

  function Initial(dedicated: bool): State {
    State(Cap(dedicated), {}, [], [], map[], [])
  }

  predicate IsFresh(s: State, mint: Mint, now: int) {
    mint in s.settledAt && now - s.settledAt[mint] < REFRESH_MS
  }

  predicate InFlight(s: State, mint: Mint) {
    mint !in s.charted && (mint in s.running || mint in s.pending)
  }

  /** The entries of a map whose keys a list still holds. */
  function Restrict(m: map<Mint, int>, keys: seq<Mint>): map<Mint, int> {
    map k | k in m && k in keys :: m[k]
  }

  function MarkSettled(s: State, mint: Mint, at: int): State {
    var keys := Touch(s.settled, mint, SETTLED_MAX);
    s.(settled := keys, settledAt := Restrict(s.settledAt[mint := at], keys))
  }

  function MarkCharted(s: State, mint: Mint): State {
    s.(charted := Touch(s.charted, mint, CHARTED_MAX))
  }

  /** The synchronous part of a request for a chart. */
  function Poll(s: State, mint: Mint, now: int): State {
    if IsFresh(s, mint, now) || mint in s.running then s
    else if |s.running| >= s.cap then
      s.(pending := if mint in s.pending then s.pending else s.pending + [mint])
    else s.(pending := Without(s.pending, mint), running := s.running + {mint})
  }

  /** How a walk ends: it threw, the database already had a recent record, or it ran. */
  datatype Ending = Threw | FoundRecent(completedAt: int) | Walked(at: int)

  function Settle(s: State, mint: Mint, how: Ending): State {
    match how
    case Threw => s
    case FoundRecent(at) => MarkSettled(s, mint, at)
    case Walked(at) => MarkSettled(s, mint, at)
  }

  /** Freeing the slot and pulling the next deferred mint in. */
  function HandOver(s: State, mint: Mint, now: int): State {
    var freed := s.(running := s.running - {mint});
    if freed.pending == [] then freed
    else Poll(freed.(pending := freed.pending[1..]), freed.pending[0], now)
  }

  function Finish(s: State, mint: Mint, how: Ending, now: int): State {
    HandOver(Settle(s, mint, how), mint, now)
  }

  /** The module with its collections changed in place. */
  class Backfiller {
    const cap: nat
    var running: set<Mint>
    var pending: seq<Mint>
    var settled: seq<Mint>
    var settledAt: map<Mint, int>
    var charted: seq<Mint>

    ghost predicate Valid()
      reads this
    {
      Consistent(Model())
    }

    ghost function Model(): State
      reads this
    {
      State(cap, running, pending, settled, settledAt, charted)
    }

    constructor (dedicated: bool)
      ensures Valid() && Model() == Initial(dedicated)
    {
      cap := Cap(dedicated);
      running, pending, settled, settledAt, charted := {}, [], [], map[], [];
    }

    method MarkSettledAt(mint: Mint, at: int)
      requires Valid()
      modifies this`settled, this`settledAt
      ensures Valid() && Model() == MarkSettled(old(Model()), mint, at)
    {
      MarkedEntries(old(Model()), mint, at);
      MarkKeeps(old(Model()), mint, at);
      settled := Without(settled, mint);
      settledAt := settledAt - {mint};
      settled := settled + [mint];
      settledAt := settledAt[mint := at];
      assert settledAt == old(settledAt)[mint := at];
      EvictSettled();
    }

    /** The eviction loop of `MarkSettledAt`. */
    method EvictSettled()
      requires Distinct(settled) && settledAt == Restrict(settledAt, settled)
      modifies this`settled, this`settledAt
      ensures settled == Newest(old(settled), SETTLED_MAX)
      ensures settledAt == Restrict(old(settledAt), settled)
    {
      while |settled| > SETTLED_MAX
        invariant |settled| <= |old(settled)| && settled == old(settled)[|old(settled)| - |settled|..]
        invariant |settled| >= |Newest(old(settled), SETTLED_MAX)|
        invariant Distinct(settled) && settledAt == Restrict(old(settledAt), settled)
      {
        var oldest := settled[0];
        DropOldest(old(settledAt), settled);
        settled := settled[1..];
        settledAt := settledAt - {oldest};
      }
    }

    method MarkChartedNow(mint: Mint)
      requires Valid()
      modifies this`charted
      ensures Valid() && Model() == MarkCharted(old(Model()), mint)
    {
      TouchKeeps(charted, mint, CHARTED_MAX);
      charted := Without(charted, mint);
      charted := charted + [mint];
      EvictCharted();
    }

    /** Its eviction loop. */
    method EvictCharted()
      modifies this`charted
      ensures charted == Newest(old(charted), CHARTED_MAX)
    {
      while |charted| > CHARTED_MAX
        invariant |charted| <= |old(charted)| && charted == old(charted)[|old(charted)| - |charted|..]
        invariant |charted| >= |Newest(old(charted), CHARTED_MAX)|
      {
        charted := charted[1..];
      }
    }

    method BackfillInFlight(mint: Mint) returns (inFlight: bool)
      ensures inFlight <==> InFlight(Model(), mint)
    {
      if mint in charted { return false; }
      return mint in running || mint in pending;
    }

    /** Returns at once: the walk is started, deferred, or not needed. */
    method BackfillChart(mint: Mint, now: int)
      requires Valid()
      modifies this`running, this`pending
      ensures Valid() && Model() == Poll(old(Model()), mint, now)
    {
      if (mint in settledAt && now - settledAt[mint] < REFRESH_MS) || mint in running { return; }
      if |running| >= cap {
        if mint !in pending { pending := pending + [mint]; }
        return;
      }
      WithoutDistinct(pending, mint);
      pending := Without(pending, mint);
      running := running + {mint};
    }

    /** The end of a walk and its `finally`. */
    method FinishWalk(mint: Mint, how: Ending, now: int)
      requires Valid()
      modifies this`running, this`pending, this`settled, this`settledAt
      ensures Valid() && Model() == Finish(old(Model()), mint, how, now)
    {
      match how {
        case Threw =>
        case FoundRecent(completedAt) => MarkSettledAt(mint, completedAt);
        case Walked(at) => MarkSettledAt(mint, at);
      }
      running := running - {mint};
      if |pending| > 0 {
        var next := pending[0];
        pending := pending[1..];
        BackfillChart(next, now);
      }
    }
  }

  // ----- Runs -----

  /** One atomic step of the process: everything between two awaits. */
  datatype Event =
    | Asked(mint: Mint, now: int)
    | HistoryLanded(mint: Mint)
    | Ended(mint: Mint, how: Ending, now: int)

  function Step(s: State, e: Event): State {
    match e
    case Asked(mint, now) => Poll(s, mint, now)
    case HistoryLanded(mint) => MarkCharted(s, mint)
    case Ended(mint, how, now) => Finish(s, mint, how, now)
  }

  /** Only a running walk can land history or end. */
  predicate Enabled(s: State, e: Event) {
    e.Asked? || e.mint in s.running
  }

  function ClockAfter(clock: int, e: Event): int {
    if e.HistoryLanded? then clock else e.now
  }

  function Run(s: State, es: seq<Event>): State {
    if es == [] then s else Step(Run(s, es[..|es| - 1]), es[|es| - 1])
  }

  function ClockAtEnd(clock: int, es: seq<Event>): int
    decreases |es|
  {
    if es == [] then clock else ClockAfter(ClockAtEnd(clock, es[..|es| - 1]), es[|es| - 1])
  }

  /** A run of steps that can each happen where it does, by any clock. */
  predicate PossibleRun(s: State, es: seq<Event>)
    decreases |es|
  {
    es == [] ||
    var front, e := es[..|es| - 1], es[|es| - 1];
    PossibleRun(s, front) && Enabled(Run(s, front), e)
  }

  /** A run in which the clock never goes back. */
  predicate ForwardRun(s: State, clock: int, es: seq<Event>)
    decreases |es|
  {
    es == [] ||
    var front, e := es[..|es| - 1], es[|es| - 1];
    ForwardRun(s, clock, front) && Enabled(Run(s, front), e)
    && ClockAtEnd(clock, front) <= ClockAfter(ClockAtEnd(clock, front), e)
  }

  // ----- What every step keeps -----

  /** The parts that need no clock. */
  ghost predicate Consistent(s: State) {
    && Distinct(s.pending) && Distinct(s.settled) && Distinct(s.charted)
    && (forall k :: k in s.settled <==> k in s.settledAt)
    && |s.settled| <= SETTLED_MAX && |s.charted| <= CHARTED_MAX
  }

  ghost predicate Orderly(s: State) {
    && Consistent(s)
    && s.cap > 0
    && |s.running| <= s.cap
    && (forall m :: m in s.pending ==> m !in s.running)
  }

  /** Work conservation: a mint waits only while every slot is taken. */
  predicate Busy(s: State) {
    s.pending != [] ==> |s.running| == s.cap
  }

  ghost predicate Inv(s: State, clock: int) {
    && Orderly(s)
    && Busy(s)
    && (forall m :: m in s.pending ==> !IsFresh(s, m, clock))
  }

  lemma DropOldest(m: map<Mint, int>, keys: seq<Mint>)
    requires Distinct(keys) && keys != []
    ensures Distinct(keys[1..])
    ensures Restrict(m, keys) - {keys[0]} == Restrict(m, keys[1..])
  {
    assert keys == [keys[0]] + keys[1..];
  }

  lemma MarkedEntries(s: State, mint: Mint, at: int)
    requires Consistent(s)
    ensures Distinct(Without(s.settled, mint) + [mint])
    ensures Restrict(s.settledAt[mint := at], Without(s.settled, mint) + [mint]) == s.settledAt[mint := at]
  {
    WithoutDistinct(s.settled, mint);
    WithoutMembers(s.settled, mint);
  }

  lemma MarkKeeps(s: State, mint: Mint, at: int)
    requires Consistent(s)
    ensures Consistent(MarkSettled(s, mint, at))
    ensures forall m, now :: m != mint && IsFresh(MarkSettled(s, mint, at), m, now) ==> IsFresh(s, m, now)
  {
    TouchKeeps(s.settled, mint, SETTLED_MAX);
  }

  lemma PollKeepsOrder(s: State, mint: Mint, now: int)
    requires Orderly(s)
    ensures Orderly(Poll(s, mint, now))
  {
    WithoutDistinct(s.pending, mint);
    WithoutMembers(s.pending, mint);
    TouchKeeps(s.pending, mint, |s.pending| + 1);
  }

  lemma SettleKeeps(s: State, mint: Mint, how: Ending)
    requires Orderly(s)
    ensures Orderly(Settle(s, mint, how))
    ensures forall m, now :: m != mint && IsFresh(Settle(s, mint, how), m, now) ==> IsFresh(s, m, now)
  {
    if !how.Threw? {
      MarkKeeps(s, mint, if how.Walked? then how.at else how.completedAt);
    }
  }

  lemma StepKeepsOrder(s: State, e: Event)
    requires Orderly(s) && Enabled(s, e)
    ensures Orderly(Step(s, e))
  {
    match e {
      case Asked(mint, now) => PollKeepsOrder(s, mint, now);
      case HistoryLanded(mint) => TouchKeeps(s.charted, mint, CHARTED_MAX);
      case Ended(mint, how, now) =>
        SettleKeeps(s, mint, how);
        var freed := Settle(s, mint, how).(running := s.running - {mint});
        if freed.pending != [] {
          PollKeepsOrder(freed.(pending := freed.pending[1..]), freed.pending[0], now);
        }
    }
  }

  /** The next deferred mint is started by a freed slot unless it counts as fresh. */
  lemma HandOverStarts(s: State, mint: Mint, how: Ending, now: int)
    requires Orderly(s) && mint in s.running && s.pending != []
    requires !IsFresh(Settle(s, mint, how), s.pending[0], now)
    ensures Finish(s, mint, how, now).running == s.running - {mint} + {s.pending[0]}
    ensures Finish(s, mint, how, now).pending == s.pending[1..]
  {
    assert s.pending[0] !in s.pending[1..];
    WithoutAbsent(s.pending[1..], s.pending[0]);
  }

  lemma PollKeepsInv(s: State, clock: int, mint: Mint, now: int)
    requires Inv(s, clock) && clock <= now
    ensures Inv(Poll(s, mint, now), now)
  {
    PollKeepsOrder(s, mint, now);
    WithoutMembers(s.pending, mint);
  }

  lemma EndKeepsInv(s: State, clock: int, mint: Mint, how: Ending, now: int)
    requires Inv(s, clock) && clock <= now && mint in s.running
    ensures Inv(Finish(s, mint, how, now), now)
  {
    StepKeepsOrder(s, Ended(mint, how, now));
    SettleKeeps(s, mint, how);
    if s.pending != [] {
      assert s.pending[0] in s.pending;
      HandOverStarts(s, mint, how, now);
      HandOverKeepsCaches(Settle(s, mint, how), mint, now);
      var t := Finish(s, mint, how, now);
      forall m | m in t.pending
        ensures !IsFresh(t, m, now)
      {
        assert m in s.pending && m != mint;
        assert !IsFresh(Settle(s, mint, how), m, now);
      }
    }
  }

  lemma StepKeepsInv(s: State, clock: int, e: Event)
    requires Inv(s, clock) && Enabled(s, e) && clock <= ClockAfter(clock, e)
    ensures Inv(Step(s, e), ClockAfter(clock, e))
  {
    match e {
      case Asked(mint, now) => PollKeepsInv(s, clock, mint, now);
      case HistoryLanded(mint) => StepKeepsOrder(s, e);
      case Ended(mint, how, now) => EndKeepsInv(s, clock, mint, how, now);
    }
  }

  /** Work conservation over every run: the cap holds, no mint is both running and
      waiting, nothing fresh waits, and nothing waits while a slot is free. */
  lemma {:induction false} WorkIsConserved(s: State, clock: int, es: seq<Event>)
    requires Inv(s, clock) && ForwardRun(s, clock, es)
    ensures Inv(Run(s, es), ClockAtEnd(clock, es))
    decreases |es|
  {
    if es != [] {
      var front := es[..|es| - 1];
      WorkIsConserved(s, clock, front);
      StepKeepsInv(Run(s, front), ClockAtEnd(clock, front), es[|es| - 1]);
    }
  }

  lemma WorkIsConservedFromBoot(dedicated: bool, clock: int, es: seq<Event>)
    requires ForwardRun(Initial(dedicated), clock, es)
    ensures var s, slots := Run(Initial(dedicated), es), if dedicated then 6 else 2;
      && |s.running| <= slots
      && (s.pending != [] ==> |s.running| == slots)
      && (forall m :: m in s.pending ==> m !in s.running && !IsFresh(s, m, ClockAtEnd(clock, es)))
  {
    WorkIsConserved(Initial(dedicated), clock, es);
    CapIsFixed(Initial(dedicated), es);
  }

  lemma {:induction false} CapIsFixed(s: State, es: seq<Event>)
    ensures Run(s, es).cap == s.cap
  {
    if es != [] {
      CapIsFixed(s, es[..|es| - 1]);
    }
  }

  // ----- When the clock goes back -----

  /** Without a clock assumption, a walk's end keeps work conserved exactly when the
      mint it hands the slot to is not fresh by the clock read then, or nothing else
      is waiting. */
  lemma HandOverConservesIff(s: State, mint: Mint, how: Ending, now: int)
    requires Orderly(s) && Busy(s) && mint in s.running
    ensures Busy(Finish(s, mint, how, now))
       <==> |s.pending| <= 1 || !IsFresh(Settle(s, mint, how), s.pending[0], now)
  {
    if s.pending != [] {
      assert s.pending[0] in s.pending;
      if !IsFresh(Settle(s, mint, how), s.pending[0], now) {
        HandOverStarts(s, mint, how, now);
      }
    }
  }

  /** Where a possible run from boot, on the public endpoint, has got to. */
  ghost predicate Reaches(es: seq<Event>, s: State) {
    PossibleRun(Initial(false), es) && Run(Initial(false), es) == s
  }

  lemma ReachesOn(es: seq<Event>, s: State, e: Event, t: State)
    requires Reaches(es, s) && Enabled(s, e) && Step(s, e) == t
    ensures Reaches(es + [e], t)
  {
    hide Enabled, Step;
    assert (es + [e])[..|es|] == es;
  }

  lemma StartsWalking(s: State, mint: Mint, now: int)
    requires mint !in s.settledAt && mint !in s.running && mint !in s.pending && |s.running| < s.cap
    ensures Step(s, Asked(mint, now)) == s.(running := s.running + {mint})
  {
    WithoutAbsent(s.pending, mint);
  }

  lemma Queues(s: State, mint: Mint, now: int)
    requires !IsFresh(s, mint, now) && mint !in s.running && mint !in s.pending && |s.running| == s.cap
    ensures Step(s, Asked(mint, now)) == s.(pending := s.pending + [mint])
  {
  }

  lemma FirstToSettle(c: Mint)
    ensures Step(State(2, {c}, [], [], map[], []), Ended(c, Walked(0), 0)) == State(2, {}, [], [c], map[c := 0], [])
  {
    assert Touch<Mint>([], c, SETTLED_MAX) == [c];
    assert Restrict(map[c := 0], [c]) == map[c := 0];
  }

  /** `c` is walked and settles at time 0; `a` and `b` take both slots; `c`, by now stale,
      and `d` queue; and `a`'s walk ends by a clock that has stepped back a millisecond. */
  function ClockGoesBack(a: Mint, b: Mint, c: Mint, d: Mint): seq<Event> {
    [] + [Asked(c, 0)] + [Ended(c, Walked(0), 0)] + [Asked(a, 1)] + [Asked(b, 1)]
    + [Asked(c, REFRESH_MS)] + [Asked(d, REFRESH_MS)] + [Ended(a, Threw, REFRESH_MS - 1)]
  }

  /** Two walks, with one mint that has settled and the queue behind it. */
  function BothSlotsTaken(a: Mint, b: Mint, c: Mint, queue: seq<Mint>): State {
    State(2, {a} + {b}, queue, [c], map[c := 0], [])
  }

  lemma SlotsFill(a: Mint, b: Mint, c: Mint)
    requires a != b && a != c && b != c
    ensures Reaches([] + [Asked(c, 0)] + [Ended(c, Walked(0), 0)] + [Asked(a, 1)] + [Asked(b, 1)], BothSlotsTaken(a, b, c, []))
  {
    var start, first := State(2, {}, [], [], map[], []), State(2, {}, [], [c], map[c := 0], []);
    assert Reaches([], start);
    StartsWalking(start, c, 0);
    FirstToSettle(c);
    StartsWalking(first, a, 1);
    StartsWalking(first.(running := {} + {a}), b, 1);
    hide Reaches, Step;
    assert {} + {c} == {c} && {} + {a} == {a};
    var es: seq<Event> := [];
    ReachesOn(es, start, Asked(c, 0), State(2, {c}, [], [], map[], []));
    es := es + [Asked(c, 0)];
    ReachesOn(es, State(2, {c}, [], [], map[], []), Ended(c, Walked(0), 0), first);
    es := es + [Ended(c, Walked(0), 0)];
    ReachesOn(es, first, Asked(a, 1), first.(running := {a}));
    es := es + [Asked(a, 1)];
    ReachesOn(es, first.(running := {a}), Asked(b, 1), BothSlotsTaken(a, b, c, []));
  }

  /** `d` is left waiting beside a free slot, which `a` and `c` have both left. */
  lemma StrandedWhenTheClockGoesBack(a: Mint, b: Mint, c: Mint, d: Mint)
    requires a != b && a != c && a != d && b != c && b != d && c != d
    ensures PossibleRun(Initial(false), ClockGoesBack(a, b, c, d))
    ensures Run(Initial(false), ClockGoesBack(a, b, c, d)) == State(2, {b}, [d], [c], map[c := 0], [])
    ensures !Busy(Run(Initial(false), ClockGoesBack(a, b, c, d)))
  {
    var es := [] + [Asked(c, 0)] + [Ended(c, Walked(0), 0)] + [Asked(a, 1)] + [Asked(b, 1)];
    SlotsFill(a, b, c);
    Queues(BothSlotsTaken(a, b, c, []), c, REFRESH_MS);
    ReachesOn(es, BothSlotsTaken(a, b, c, []), Asked(c, REFRESH_MS), BothSlotsTaken(a, b, c, [] + [c]));
    Queues(BothSlotsTaken(a, b, c, [] + [c]), d, REFRESH_MS);
    ReachesOn(es + [Asked(c, REFRESH_MS)], BothSlotsTaken(a, b, c, [] + [c]), Asked(d, REFRESH_MS),
              BothSlotsTaken(a, b, c, [] + [c] + [d]));
    HandsToTheFresh(a, b, c, d);
    ReachesOn(es + [Asked(c, REFRESH_MS)] + [Asked(d, REFRESH_MS)], BothSlotsTaken(a, b, c, [] + [c] + [d]),
              Ended(a, Threw, REFRESH_MS - 1), State(2, {b}, [d], [c], map[c := 0], []));
  }

  lemma HandsToTheFresh(a: Mint, b: Mint, c: Mint, d: Mint)
    requires a != b && a != c && a != d && b != c && b != d && c != d
    ensures Step(BothSlotsTaken(a, b, c, [] + [c] + [d]), Ended(a, Threw, REFRESH_MS - 1))
         == State(2, {b}, [d], [c], map[c := 0], [])
  {
    assert ([] + [c] + [d])[1..] == [d];
    assert {a} + {b} - {a} == {b};
  }

  // ----- Order of service -----

  function Ends(es: seq<Event>): nat {
    if es == [] then 0 else Ends(es[..|es| - 1]) + if es[|es| - 1].Ended? then 1 else 0
  }

  /** One step leaves a waiting mint where it is, or moves everybody up one. */
  lemma QueueMoves(s: State, clock: int, e: Event, k: nat)
    requires Inv(s, clock) && Enabled(s, e) && clock <= ClockAfter(clock, e) && k < |s.pending|
    ensures !e.Ended? ==> Step(s, e).running == s.running
                          && k < |Step(s, e).pending| && Step(s, e).pending[k] == s.pending[k]
    ensures e.Ended? ==> Step(s, e).running == s.running - {e.mint} + {s.pending[0]}
                         && Step(s, e).pending == s.pending[1..]
  {
    if e.Ended? {
      SettleKeeps(s, e.mint, e.how);
      assert s.pending[0] in s.pending;
      HandOverStarts(s, e.mint, e.how, e.now);
    }
  }

  /** No overtaking: a mint with `k` ahead of it still waits, `k` minus the walks
      ended so far from the front, until the k-th walk has ended. */
  lemma {:induction false} WaitsItsTurn(s: State, clock: int, es: seq<Event>, k: nat)
    requires Inv(s, clock) && ForwardRun(s, clock, es) && k < |s.pending| && Ends(es) <= k
    ensures var t := Run(s, es);
      k - Ends(es) < |t.pending| && t.pending[k - Ends(es)] == s.pending[k] && s.pending[k] !in t.running
    decreases |es|
  {
    hide Step, Enabled, ClockAfter, Busy, IsFresh, Consistent;
    if es == [] {
      assert s.pending[k] in s.pending;
    } else {
      var front, e := es[..|es| - 1], es[|es| - 1];
      WaitsItsTurn(s, clock, front, k);
      WorkIsConserved(s, clock, es);
      WorkIsConserved(s, clock, front);
      QueueMoves(Run(s, front), ClockAtEnd(clock, front), e, k - Ends(front));
      var t := Run(s, es);
      assert t.pending[k - Ends(es)] in t.pending;
    }
  }

  /** ... and the very next walk to end starts it. */
  lemma StartedByTheNextEnd(s: State, clock: int, es: seq<Event>, k: nat, e: Event)
    requires Inv(s, clock) && k < |s.pending| && Ends(es) == k && e.Ended?
    requires ForwardRun(s, clock, es) && Enabled(Run(s, es), e) && ClockAtEnd(clock, es) <= e.now
    ensures s.pending[k] !in Run(s, es).running
    ensures s.pending[k] in Step(Run(s, es), e).running
  {
    WaitsItsTurn(s, clock, es, k);
    WorkIsConserved(s, clock, es);
    QueueMoves(Run(s, es), ClockAtEnd(clock, es), e, 0);
  }

  /** A request is answered by a walk, a place in the queue, or fresh history; and
      nothing but the end of its own walk takes a mint out of the first two. */
  lemma NothingIsForgotten(s: State, clock: int, e: Event, mint: Mint)
    requires Inv(s, clock) && Enabled(s, e) && clock <= ClockAfter(clock, e)
    requires mint in s.running || mint in s.pending || (e.Asked? && e.mint == mint)
    ensures var t := Step(s, e);
      || mint in t.running || mint in t.pending
      || (e.Asked? && IsFresh(t, mint, e.now))
      || (e.Ended? && e.mint == mint)
  {
    match e {
      case Asked(m, now) => WithoutMembers(s.pending, m);
      case HistoryLanded(m) =>
      case Ended(m, how, now) =>
        if s.pending != [] {
          QueueMoves(s, clock, e, 0);
        }
    }
  }

  // ----- The caches over a run -----

  /** The marks a run puts on `settled`, oldest first. */
  function SettledMarks(es: seq<Event>): seq<(Mint, int)> {
    if es == [] then [] else SettledMarks(es[..|es| - 1]) + MarksOf(es[|es| - 1])
  }

  function ChartedMarks(es: seq<Event>): seq<Mint> {
    if es == [] then []
    else
      var e := es[|es| - 1];
      ChartedMarks(es[..|es| - 1]) + (if e.HistoryLanded? then [e.mint] else [])
  }

  function Mints(marks: seq<(Mint, int)>): seq<Mint> {
    seq(|marks|, i requires 0 <= i < |marks| => marks[i].0)
  }

  /** The time of the latest mark of a mint. */
  function LatestMark(marks: seq<(Mint, int)>, mint: Mint): int
    requires mint in Mints(marks)
  {
    var last := |marks| - 1;
    if marks[last].0 == mint then marks[last].1
    else
      assert marks == marks[..last] + [marks[last]];
      assert Mints(marks)[..last] == Mints(marks[..last]);
      assert mint in Mints(marks)[..last];
      LatestMark(marks[..last], mint)
  }

  lemma HandOverKeepsCaches(s: State, mint: Mint, now: int)
    ensures var t := HandOver(s, mint, now);
      t.settled == s.settled && t.settledAt == s.settledAt && t.charted == s.charted
  {
  }

  /** `settled` is the recency cache of these marks, each mint with its latest time. */
  ghost predicate Remembers(s: State, marks: seq<(Mint, int)>) {
    && s.settled == Recall(Mints(marks), SETTLED_MAX)
    && (forall m :: m in s.settledAt <==> m in s.settled)
    && (forall m :: m in s.settledAt ==> m in Mints(marks) && s.settledAt[m] == LatestMark(marks, m))
  }

  /** LRU refinement over whole runs: `settled` is the recency cache of the run's
      marks, each mint with the time of its latest mark, and `charted` likewise. */
  lemma {:induction false} CachesAreRecency(dedicated: bool, es: seq<Event>)
    ensures Remembers(Run(Initial(dedicated), es), SettledMarks(es))
    ensures Run(Initial(dedicated), es).charted == Recall(ChartedMarks(es), CHARTED_MAX)
  {
    if es != [] {
      var front, e := es[..|es| - 1], es[|es| - 1];
      CachesAreRecency(dedicated, front);
      StepRemembers(Run(Initial(dedicated), front), SettledMarks(front), e);
      if e.HistoryLanded? {
        assert ChartedMarks(es)[..|ChartedMarks(es)| - 1] == ChartedMarks(front);
      } else {
        assert ChartedMarks(es) == ChartedMarks(front);
      }
    }
  }

  function MarksOf(e: Event): seq<(Mint, int)> {
    if !e.Ended? then []
    else match e.how
      case Threw => []
      case FoundRecent(at) => [(e.mint, at)]
      case Walked(at) => [(e.mint, at)]
  }

  lemma StepRemembers(s: State, marks: seq<(Mint, int)>, e: Event)
    requires Remembers(s, marks)
    ensures Remembers(Step(s, e), marks + MarksOf(e))
    ensures Step(s, e).charted == if e.HistoryLanded? then Touch(s.charted, e.mint, CHARTED_MAX) else s.charted
  {
    if MarksOf(e) == [] {
      assert marks + [] == marks;
    } else {
      MarkExtendsRecency(s, marks, e.mint, MarksOf(e)[0].1);
    }
    if e.Ended? {
      HandOverKeepsCaches(Settle(s, e.mint, e.how), e.mint, e.now);
    }
  }

  lemma MarkExtendsRecency(s: State, marks: seq<(Mint, int)>, mint: Mint, at: int)
    requires Remembers(s, marks)
    ensures Remembers(MarkSettled(s, mint, at), marks + [(mint, at)])
  {
    var longer := marks + [(mint, at)];
    assert Mints(longer) == Mints(marks) + [mint];
    assert Mints(longer)[..|marks|] == Mints(marks);
    assert longer[..|marks|] == marks;
    HoldsTheMostRecent(Mints(marks), SETTLED_MAX, mint);
    TouchKeeps(s.settled, mint, SETTLED_MAX);
  }

  /** So a mint's settled time is remembered exactly while fewer than SETTLED_MAX
      other mints have settled since. */
  lemma SettledRemembersTheMostRecent(dedicated: bool, es: seq<Event>, mint: Mint)
    ensures var s, marked := Run(Initial(dedicated), es), Mints(SettledMarks(es));
      mint in s.settledAt <==> mint in marked && |MarkedSince(marked, mint)| < SETTLED_MAX
    ensures var s, marked := Run(Initial(dedicated), es), ChartedMarks(es);
      mint in s.charted <==> mint in marked && |MarkedSince(marked, mint)| < CHARTED_MAX
  {
    CachesAreRecency(dedicated, es);
    HoldsTheMostRecent(Mints(SettledMarks(es)), SETTLED_MAX, mint);
    HoldsTheMostRecent(ChartedMarks(es), CHARTED_MAX, mint);
  }

  /** A mint's history is fresh exactly for the eight minutes after its latest mark, and only
      while fewer than 5,000 others have settled since. */
  lemma FreshIff(dedicated: bool, es: seq<Event>, mint: Mint, now: int)
    ensures var s, marks := Run(Initial(dedicated), es), SettledMarks(es);
      IsFresh(s, mint, now) <==>
        mint in Mints(marks) && |MarkedSince(Mints(marks), mint)| < 5_000 && now < LatestMark(marks, mint) + 480_000
  {
    CachesAreRecency(dedicated, es);
    SettledRemembersTheMostRecent(dedicated, es, mint);
    hide Run, SettledMarks, LatestMark, Mints, Recall, MarkedSince;
  }

  // ----- What a reader is told -----

  /** Whether a mint is owed a walk: asked for when its history was not fresh, and not
      walked to an end since. */
  predicate Owed(dedicated: bool, es: seq<Event>, mint: Mint) {
    es != [] &&
    var front, e := es[..|es| - 1], es[|es| - 1];
    match e
    case Asked(m, now) => Owed(dedicated, front, mint) || (m == mint && !IsFresh(Run(Initial(dedicated), front), mint, now))
    case HistoryLanded(_) => Owed(dedicated, front, mint)
    case Ended(m, _, _) => Owed(dedicated, front, mint) && m != mint
  }

  predicate Taken(s: State, mint: Mint) {
    mint in s.running || mint in s.pending
  }

  lemma TakenUntilItEnds(s: State, clock: int, e: Event, mint: Mint)
    requires Inv(s, clock) && Enabled(s, e) && clock <= ClockAfter(clock, e)
    ensures Taken(Step(s, e), mint) <==>
      match e
      case Asked(m, now) => Taken(s, mint) || (m == mint && !IsFresh(s, mint, now))
      case HistoryLanded(_) => Taken(s, mint)
      case Ended(m, _, _) => Taken(s, mint) && m != mint
  {
    if Taken(s, mint) {
      NothingIsForgotten(s, clock, e, mint);
    }
    match e {
      case Asked(m, now) =>
        if m == mint {
          NothingIsForgotten(s, clock, e, mint);
        }
        WithoutMembers(s.pending, m);
      case HistoryLanded(m) =>
      case Ended(m, how, now) =>
        if s.pending != [] {
          QueueMoves(s, clock, e, 0);
        }
        EndedIsGone(s, m, how, now, mint);
    }
  }

  lemma EndedIsGone(s: State, mint: Mint, how: Ending, now: int, other: Mint)
    requires Orderly(s) && mint in s.running
    ensures !Taken(Finish(s, mint, how, now), mint)
    ensures !Taken(s, other) ==> !Taken(Finish(s, mint, how, now), other)
  {
    SettleTakesNothing(s, mint, how);
    HandsOnlyOn(Settle(s, mint, how), mint, now);
  }

  lemma SettleTakesNothing(s: State, mint: Mint, how: Ending)
    ensures Settle(s, mint, how).running == s.running && Settle(s, mint, how).pending == s.pending
  {
    hide Restrict;
  }

  lemma HandsOnlyOn(s: State, mint: Mint, now: int)
    requires mint !in s.pending
    ensures forall m :: Taken(HandOver(s, mint, now), m) ==> Taken(s, m) && m != mint
  {
    if s.pending != [] {
      WithoutMembers(s.pending[1..], s.pending[0]);
    }
    hide IsFresh, Without;
  }

  lemma {:induction false} TakenIffOwed(dedicated: bool, clock: int, es: seq<Event>, mint: Mint)
    requires ForwardRun(Initial(dedicated), clock, es)
    ensures Taken(Run(Initial(dedicated), es), mint) <==> Owed(dedicated, es, mint)
  {
    if es != [] {
      var front := es[..|es| - 1];
      TakenIffOwed(dedicated, clock, front, mint);
      WorkIsConserved(Initial(dedicated), clock, front);
      hide Step, Taken, Initial, Inv, IsFresh;
      TakenUntilItEnds(Run(Initial(dedicated), front), ClockAtEnd(clock, front), es[|es| - 1], mint);
    }
  }

  /** Over every run whose clock does not go back, a chart is said to be on its way exactly
      while its mint is owed a walk and no history of it has landed, or so long ago that 512
      others have landed since. */
  lemma InFlightIff(dedicated: bool, clock: int, es: seq<Event>, mint: Mint)
    requires ForwardRun(Initial(dedicated), clock, es)
    ensures var landed := ChartedMarks(es);
      InFlight(Run(Initial(dedicated), es), mint) <==>
        Owed(dedicated, es, mint) && (mint !in landed || |MarkedSince(landed, mint)| >= 512)
  {
    TakenIffOwed(dedicated, clock, es, mint);
    SettledRemembersTheMostRecent(dedicated, es, mint);
  }
}
