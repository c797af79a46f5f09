/** The warm rotation: which chart the background job fetches next. */
module ChartWarm {
  import opened Wrappers

  type Mint = string
  type Millis = int

  const REWARM_MS := 6 * 60 * 60 * 1_000

  /** Warmed too recently to be owed another. */
  predicate Current(warmed: map<Mint, Millis>, mint: Mint, now: Millis) {
    mint in warmed && now - warmed[mint] < REWARM_MS
  }

  predicate Owed(warmed: map<Mint, Millis>, inFlight: set<Mint>, now: Millis, mint: Mint) {
    !Current(warmed, mint, now) && mint !in inFlight
  }

  /** The first of the ranked list that is owed a warm. */
  function Choice(ranked: seq<Mint>, warmed: map<Mint, Millis>, now: Millis, inFlight: set<Mint>): Option<Mint> {
    if ranked == [] then None
    else if Owed(warmed, inFlight, now, ranked[0]) then Some(ranked[0])
    else Choice(ranked[1..], warmed, now, inFlight)
  }

  /** The marks of listed mints only. */
  function Listed(warmed: map<Mint, Millis>, ranked: seq<Mint>): map<Mint, Millis> {
    map m | m in warmed && m in ranked :: warmed[m]
  }

  /** What choosing leaves in the map: it is pruned only when everything is current. */
  function After(ranked: seq<Mint>, warmed: map<Mint, Millis>, now: Millis, inFlight: set<Mint>): map<Mint, Millis> {
    if Choice(ranked, warmed, now, inFlight).None? then Listed(warmed, ranked) else warmed
  }

  /** The answer is owed and nothing before it in the list is; there is none exactly when
      nothing on the list is owed. */
  lemma {:induction false} ChoiceIsFirstOwed(ranked: seq<Mint>, warmed: map<Mint, Millis>, now: Millis, inFlight: set<Mint>, i: nat)
    requires i < |ranked|
    ensures var passed := (ranked[i] in warmed && now < warmed[ranked[i]] + 21_600_000) || ranked[i] in inFlight;
      match Choice(ranked, warmed, now, inFlight)
      case None => passed
      case Some(mint) =>
        && mint in ranked && (mint in warmed ==> now >= warmed[mint] + 21_600_000) && mint !in inFlight
        && (mint !in ranked[..i + 1] ==> passed)
  {
    if Owed(warmed, inFlight, now, ranked[0]) {
      assert ranked[..i + 1][0] == ranked[0];
    } else if i > 0 {
      ChoiceIsFirstOwed(ranked[1..], warmed, now, inFlight, i - 1);
      assert ranked[..i + 1] == [ranked[0]] + ranked[1..][..i];
    } else if |ranked| > 1 {
      ChoiceIsFirstOwed(ranked[1..], warmed, now, inFlight, 0);
    }
  }

  // ----- The job as a machine: a tick runs from await to await -----

  datatype Phase = Idle | Asking(now: Millis) | Chosen(mint: Mint, now: Millis) | Warming

  /** What was attempted: the clock it was chosen by and the clock it was marked with. */
  datatype Attempt = Attempt(mint: Mint, chosenAt: Millis, markedAt: Millis)

  datatype State = State(phase: Phase, warmedAt: map<Mint, Millis>, attempts: seq<Attempt>, failures: nat)

  datatype Event =
    | Start(now: Millis)
    | Answer(ranked: seq<Mint>, inFlight: set<Mint>)
    | Mark(at: Millis)
    | Finish
    | Fail

  function Step(s: State, e: Event): State {
    match e
    case Start(now) => if s.phase.Idle? then s.(phase := Asking(now)) else s
    case Answer(ranked, inFlight) => if s.phase.Asking? then Chose(s, ranked, inFlight) else s
    case Mark(at) =>
      if s.phase.Chosen?
      then s.(phase := Warming, warmedAt := s.warmedAt[s.phase.mint := at],
              attempts := s.attempts + [Attempt(s.phase.mint, s.phase.now, at)])
      else s
    case Finish => if s.phase.Warming? then s.(phase := Idle) else s
    case Fail => if s.phase.Idle? then s else s.(phase := Idle, failures := s.failures + 1)
  }

  function Chose(s: State, ranked: seq<Mint>, inFlight: set<Mint>): State
    requires s.phase.Asking?
  {
    var now := s.phase.now;
    var choice := Choice(ranked, s.warmedAt, now, inFlight);
    s.(phase := if choice.None? then Idle else Chosen(choice.value, now),
       warmedAt := After(ranked, s.warmedAt, now, inFlight))
  }

  function Run(s: State, es: seq<Event>): State {
    if es == [] then s else Step(Run(s, es[..|es| - 1]), es[|es| - 1])
  }

  class Warmer {
    var phase: Phase
    var warmedAt: map<Mint, Millis>
    var attempts: seq<Attempt>
    var failures: nat

    constructor ()
      ensures Model() == State(Idle, map[], [], 0)
    {
      phase, warmedAt, attempts, failures := Idle, map[], [], 0;
    }

    ghost function Model(): State
      reads this
    {
      State(phase, warmedAt, attempts, failures)
    }

    /** The next mint owed a warm, or none, having then forgotten what is off the list. */
    method ChooseMint(ranked: seq<Mint>, now: Millis, inFlight: set<Mint>) returns (mint: Option<Mint>)
      modifies this`warmedAt
      ensures mint == Choice(ranked, old(warmedAt), now, inFlight)
      ensures warmedAt == After(ranked, old(warmedAt), now, inFlight)
    {
      for i := 0 to |ranked|
        invariant Choice(ranked, warmedAt, now, inFlight) == Choice(ranked[i..], warmedAt, now, inFlight)
      {
        var candidate := ranked[i];
        assert ranked[i..][1..] == ranked[i + 1..];
        if candidate in warmedAt && now - warmedAt[candidate] < REWARM_MS { continue; }
        if candidate in inFlight { continue; }
        return Some(candidate);
      }
      assert ranked[|ranked|..] == [];
      var left := warmedAt.Keys;
      ghost var was := warmedAt;
      while left != {}
        invariant left <= was.Keys
        invariant forall m :: m in warmedAt <==> m in was && (m in left || m in ranked)
        invariant forall m :: m in warmedAt ==> warmedAt[m] == was[m]
        decreases |left|
      {
        var m :| m in left;
        left := left - {m};
        if m !in ranked { warmedAt := warmedAt - {m}; }
      }
      assert warmedAt == Listed(was, ranked);
      return None;
    }

    method OnStart(now: Millis)
      modifies this
      ensures Model() == Step(old(Model()), Start(now))
    {
      if !phase.Idle? { return; }
      phase := Asking(now);
    }

    method OnAnswer(ranked: seq<Mint>, inFlight: set<Mint>)
      modifies this
      ensures Model() == Step(old(Model()), Answer(ranked, inFlight))
    {
      if !phase.Asking? { return; }
      var now := phase.now;
      var mint := ChooseMint(ranked, now, inFlight);
      phase := if mint.None? then Idle else Chosen(mint.value, now);
    }

    /** Marked before the attempt, whatever comes of it. */
    method OnMark(at: Millis)
      modifies this
      ensures Model() == Step(old(Model()), Mark(at))
    {
      if !phase.Chosen? { return; }
      warmedAt := warmedAt[phase.mint := at];
      attempts := attempts + [Attempt(phase.mint, phase.now, at)];
      phase := Warming;
    }

    method OnEnd(failed: bool)
      modifies this
      ensures Model() == Step(old(Model()), if failed then Fail else Finish)
    {
      if failed {
        if phase.Idle? { return; }
        failures := failures + 1;
        phase := Idle;
      } else {
        if !phase.Warming? { return; }
        phase := Idle;
      }
    }
  }

  // ----- A null answer leaves only listed mints -----

  /** When nothing is owed the map forgets every mint off the list and no other. */
  lemma NullAnswerForgetsTheUnlisted(s: State, ranked: seq<Mint>, inFlight: set<Mint>, mint: Mint)
    requires s.phase.Asking?
    ensures var next := Step(s, Answer(ranked, inFlight));
      next.phase.Idle? ==>
        && (mint in next.warmedAt <==> mint in s.warmedAt && mint in ranked)
        && (mint in next.warmedAt ==> next.warmedAt[mint] == s.warmedAt[mint])
        && (mint in ranked ==> Current(s.warmedAt, mint, s.phase.now) || mint in inFlight)
  {
    if mint in ranked {
      var i :| 0 <= i < |ranked| && ranked[i] == mint;
      ChoiceIsFirstOwed(ranked, s.warmedAt, s.phase.now, inFlight, i);
    }
  }

  // ----- Attempts on a listed mint are apart -----

  /** When a mint was last marked in an attempt. */
  function LastMark(attempts: seq<Attempt>, mint: Mint): Option<Millis> {
    if attempts == [] then None
    else if attempts[|attempts| - 1].mint == mint then Some(attempts[|attempts| - 1].markedAt)
    else LastMark(attempts[..|attempts| - 1], mint)
  }

  /** Each attempt on `mint` was chosen at least the re-warm time after the one before was
      marked. */
  predicate Apart(attempts: seq<Attempt>, mint: Mint) {
    attempts == [] ||
    (var front, last := attempts[..|attempts| - 1], attempts[|attempts| - 1];
     && Apart(front, mint)
     && (last.mint == mint && LastMark(front, mint).Some? ==> last.chosenAt - LastMark(front, mint).value >= REWARM_MS))
  }

  /** Its mark is in the map, and a choice of it now in hand is that far from its mark. */
  predicate Remembered(s: State, mint: Mint) {
    && (LastMark(s.attempts, mint).Some? ==> mint in s.warmedAt && s.warmedAt[mint] == LastMark(s.attempts, mint).value)
    && (s.phase.Chosen? && s.phase.mint == mint ==> !Current(s.warmedAt, mint, s.phase.now))
  }

  lemma AttemptSnoc(attempts: seq<Attempt>, last: Attempt, mint: Mint)
    ensures LastMark(attempts + [last], mint) == if last.mint == mint then Some(last.markedAt) else LastMark(attempts, mint)
    ensures Apart(attempts + [last], mint) <==>
      && Apart(attempts, mint)
      && (last.mint == mint && LastMark(attempts, mint).Some? ==> last.chosenAt - LastMark(attempts, mint).value >= REWARM_MS)
  {
    assert (attempts + [last])[..|attempts|] == attempts;
  }

  predicate Lists(e: Event, mint: Mint) {
    e.Answer? ==> mint in e.ranked
  }

  lemma AnswerRemembers(s: State, ranked: seq<Mint>, inFlight: set<Mint>, mint: Mint)
    requires s.phase.Asking? && Remembered(s, mint) && mint in ranked
    ensures Remembered(Chose(s, ranked, inFlight), mint)
  {
    var i :| 0 <= i < |ranked| && ranked[i] == mint;
    ChoiceIsFirstOwed(ranked, s.warmedAt, s.phase.now, inFlight, i);
    hide Choice, LastMark, Current;
  }

  lemma MarkKeepsApart(s: State, at: Millis, mint: Mint)
    requires s.phase.Chosen? && Apart(s.attempts, mint) && Remembered(s, mint)
    ensures Apart(Step(s, Mark(at)).attempts, mint) && Remembered(Step(s, Mark(at)), mint)
  {
    hide Apart, LastMark;
    AttemptSnoc(s.attempts, Attempt(s.phase.mint, s.phase.now, at), mint);
  }

  lemma StepKeepsApart(s: State, e: Event, mint: Mint)
    requires Apart(s.attempts, mint) && Remembered(s, mint) && Lists(e, mint)
    ensures Apart(Step(s, e).attempts, mint) && Remembered(Step(s, e), mint)
  {
    hide Apart, LastMark, Current, Choice, After;
    if e.Answer? && s.phase.Asking? {
      AnswerRemembers(s, e.ranked, e.inFlight, mint);
    } else if e.Mark? && s.phase.Chosen? {
      MarkKeepsApart(s, e.at, mint);
    }
  }

  /** Whatever the job does, attempts on a mint that stays listed are at least the re-warm
      time apart, and none is forgotten. */
  lemma {:induction false} AttemptsAreApart(s: State, es: seq<Event>, mint: Mint)
    requires s.attempts == [] && s.phase.Idle?
    requires forall k :: 0 <= k < |es| ==> Lists(es[k], mint)
    ensures Apart(Run(s, es).attempts, mint) && Remembered(Run(s, es), mint)
  {
    if es != [] {
      AttemptsAreApart(s, es[..|es| - 1], mint);
      StepKeepsApart(Run(s, es[..|es| - 1]), es[|es| - 1], mint);
    }
  }

  // ----- The rotation -----

  /** A whole tick that is answered, marked and ended, well or badly. */
  function Tick(s: State, t: Ticked, ranked: seq<Mint>, inFlight: set<Mint>): State {
    var marked := Step(Step(Step(s, Start(t.now)), Answer(ranked, inFlight)), Mark(t.at));
    Step(marked, if t.failed then Fail else Finish)
  }

  /** A whole tick from an idle job: the first mint owed is attempted and marked, the job is
      held against other ticks until the attempt ends, and freed by either ending, of which
      failures are counted. With nothing owed nothing is attempted. */
  lemma WholeTick(s: State, t: Ticked, ranked: seq<Mint>, inFlight: set<Mint>, other: Millis)
    requires s.phase.Idle?
    ensures var choice, end := Choice(ranked, s.warmedAt, t.now, inFlight), Tick(s, t, ranked, inFlight);
      var marked := Step(Step(Step(s, Start(t.now)), Answer(ranked, inFlight)), Mark(t.at));
      && end.phase.Idle?
      && (choice.Some? ==>
            && Step(marked, Start(other)) == marked && Step(marked, Mark(other)) == marked
            && end.attempts == s.attempts + [Attempt(choice.value, t.now, t.at)]
            && end.warmedAt == s.warmedAt[choice.value := t.at]
            && end.failures == s.failures + if t.failed then 1 else 0)
      && (choice.None? ==> end.attempts == s.attempts && end.failures == s.failures && end.warmedAt == Listed(s.warmedAt, ranked))
  {
    hide Choice, Listed;
  }

  datatype Ticked = Ticked(now: Millis, at: Millis, failed: bool)

  function Ticks(s: State, ts: seq<Ticked>, ranked: seq<Mint>): State {
    if ts == [] then s else Tick(Ticks(s, ts[..|ts| - 1], ranked), ts[|ts| - 1], ranked, {})
  }

  ghost predicate DistinctMints(ranked: seq<Mint>) {
    forall i, j :: 0 <= i < j < |ranked| ==> ranked[i] != ranked[j]
  }

  /** Every tick is chosen within the re-warm time of every mark before it. */
  ghost predicate InsideTheWindow(ts: seq<Ticked>) {
    forall i, k :: 0 <= i < k < |ts| ==> ts[k].now - ts[i].at < REWARM_MS
  }

  function MintsOf(attempts: seq<Attempt>): seq<Mint> {
    seq(|attempts|, i requires 0 <= i < |attempts| => attempts[i].mint)
  }

  lemma {:induction false} ChoiceAt(ranked: seq<Mint>, warmed: map<Mint, Millis>, now: Millis, k: nat)
    requires k < |ranked| && !Current(warmed, ranked[k], now)
    requires forall i :: 0 <= i < k ==> Current(warmed, ranked[i], now)
    ensures Choice(ranked, warmed, now, {}) == Some(ranked[k])
  {
    if k > 0 {
      assert Current(warmed, ranked[0], now);
      forall i | 0 <= i < k - 1
        ensures Current(warmed, ranked[1..][i], now)
      {
        assert Current(warmed, ranked[i + 1], now);
      }
      ChoiceAt(ranked[1..], warmed, now, k - 1);
    }
  }

  /** The first mints of the list have each been attempted once, in order, and marked. */
  ghost predicate Covered(s: State, ts: seq<Ticked>, ranked: seq<Mint>)
    requires |ts| <= |ranked|
  {
    && s.phase.Idle?
    && MintsOf(s.attempts) == ranked[..|ts|]
    && (forall m :: m in s.warmedAt <==> m in ranked[..|ts|])
    && (forall i :: 0 <= i < |ts| ==> ranked[i] in s.warmedAt && s.warmedAt[ranked[i]] == ts[i].at)
  }

  lemma TickAttempts(s: State, t: Ticked, ranked: seq<Mint>, n: nat)
    requires s.phase.Idle? && n < |ranked| && !Current(s.warmedAt, ranked[n], t.now)
    requires forall i :: 0 <= i < n ==> Current(s.warmedAt, ranked[i], t.now)
    ensures var end := Tick(s, t, ranked, {});
      && end.phase.Idle?
      && end.attempts == s.attempts + [Attempt(ranked[n], t.now, t.at)]
      && end.warmedAt == s.warmedAt[ranked[n] := t.at]
  {
    ChoiceAt(ranked, s.warmedAt, t.now, n);
  }

  lemma CoversOneMore(before: State, end: State, ts: seq<Ticked>, ranked: seq<Mint>, t: Ticked)
    requires DistinctMints(ranked) && |ts| < |ranked| && Covered(before, ts, ranked) && end.phase.Idle?
    requires end.attempts == before.attempts + [Attempt(ranked[|ts|], t.now, t.at)]
    requires end.warmedAt == before.warmedAt[ranked[|ts|] := t.at]
    ensures Covered(end, ts + [t], ranked)
  {
    var n := |ts|;
    assert MintsOf(end.attempts) == MintsOf(before.attempts) + [ranked[n]];
    assert ranked[..n + 1] == ranked[..n] + [ranked[n]];
  }

  lemma CoveredAreCurrent(s: State, ts: seq<Ticked>, t: Ticked, ranked: seq<Mint>, i: nat)
    requires |ts| <= |ranked| && Covered(s, ts, ranked) && InsideTheWindow(ts + [t]) && i < |ts|
    ensures Current(s.warmedAt, ranked[i], t.now)
  {
    assert (ts + [t])[|ts|].now - (ts + [t])[i].at < REWARM_MS;
  }

  lemma WindowOf(ts: seq<Ticked>, t: Ticked)
    requires InsideTheWindow(ts + [t])
    ensures InsideTheWindow(ts)
  {
    forall i, k | 0 <= i < k < |ts|
      ensures ts[k].now - ts[i].at < REWARM_MS
    {
      assert (ts + [t])[i] == ts[i] && (ts + [t])[k] == ts[k];
    }
  }

  /** From a cold start the first N ticks inside the re-warm window attempt the N listed
      mints in list order, even if every warm fails. */
  lemma {:induction false} RotationCoversTheList(s: State, ts: seq<Ticked>, ranked: seq<Mint>)
    requires s.phase.Idle? && s.attempts == [] && s.warmedAt == map[]
    requires DistinctMints(ranked) && |ts| <= |ranked| && InsideTheWindow(ts)
    ensures Covered(Ticks(s, ts, ranked), ts, ranked)
  {
    if ts != [] {
      var front, t := ts[..|ts| - 1], ts[|ts| - 1];
      assert ts == front + [t];
      WindowOf(front, t);
      RotationCoversTheList(s, front, ranked);
      CoversAfterTick(Ticks(s, front, ranked), front, t, ranked);
    }
  }

  lemma CoversAfterTick(before: State, ts: seq<Ticked>, t: Ticked, ranked: seq<Mint>)
    requires DistinctMints(ranked) && |ts| < |ranked| && InsideTheWindow(ts + [t]) && Covered(before, ts, ranked)
    ensures Covered(Tick(before, t, ranked, {}), ts + [t], ranked)
  {
    var n := |ts|;
    forall i | 0 <= i < n
      ensures Current(before.warmedAt, ranked[i], t.now)
    {
      CoveredAreCurrent(before, ts, t, ranked, i);
    }
    assert ranked[n] !in ranked[..n];
    TickAttempts(before, t, ranked, n);
    CoversOneMore(before, Tick(before, t, ranked, {}), ts, ranked, t);
  }

  /** Then nothing is owed, and the map holds the list and nothing else. */
  lemma RotationThenRests(s: State, ts: seq<Ticked>, ranked: seq<Mint>, t: Ticked)
    requires s.phase.Idle? && s.attempts == [] && s.warmedAt == map[]
    requires DistinctMints(ranked) && |ts| == |ranked| && InsideTheWindow(ts + [t])
    ensures var end := Ticks(s, ts, ranked);
      Tick(end, t, ranked, {}) == end
  {
    var end := Ticks(s, ts, ranked);
    WindowOf(ts, t);
    RotationCoversTheList(s, ts, ranked);
    forall i | 0 <= i < |ranked|
      ensures Current(end.warmedAt, ranked[i], t.now)
    {
      CoveredAreCurrent(end, ts, t, ranked, i);
    }
    NothingOwed(ranked, end.warmedAt, t.now);
    assert ranked[..|ts|] == ranked;
    assert Listed(end.warmedAt, ranked) == end.warmedAt;
  }

  lemma {:induction false} NothingOwed(ranked: seq<Mint>, warmed: map<Mint, Millis>, now: Millis)
    requires forall i :: 0 <= i < |ranked| ==> Current(warmed, ranked[i], now)
    ensures Choice(ranked, warmed, now, {}) == None
  {
    if ranked != [] {
      assert Current(warmed, ranked[0], now);
      forall i | 0 <= i < |ranked| - 1
        ensures Current(warmed, ranked[1..][i], now)
      {
        assert Current(warmed, ranked[i + 1], now);
      }
      NothingOwed(ranked[1..], warmed, now);
    }
  }
}
