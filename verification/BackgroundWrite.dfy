/** The background write lock: a chain of promises, one link per call, with a bounded
    retry while the lock is held. */
module BackgroundWrite {

  const RETRIES := 4
  const BACKOFF_MS := 120

  /** `tail`: resolved from the start, or the previous tail followed by one call's own
      promise. */
  datatype Promise = Resolved | Then(ahead: Promise, mine: nat)

  /** A chain settles once every call on it has released. */
  predicate Settled(p: Promise, released: set<nat>) {
    match p
    case Resolved => true
    case Then(ahead, mine) => Settled(ahead, released) && mine in released
  }

  /** How one attempt at the write ends. */
  datatype Attempt = Returned | Busy | Failed

  datatype Phase = Waiting | Writing | BackingOff | Over

  /** One call of `background`: the promise it awaits, where it stands, its finished
      attempts and the milliseconds it has backed off. */
  datatype Call = Call(ahead: Promise, phase: Phase, tries: seq<Attempt>, waited: nat)

  /** Calls are numbered in call order; `released` holds the promises resolved so far. */
  datatype State = State(tail: Promise, calls: seq<Call>, released: set<nat>)

  const IDLE := State(Resolved, [], {})

  predicate Holds(c: Call) {
    c.phase == Writing || c.phase == BackingOff
  }

  /** The event loop may resume a call only where its await has settled. */
  datatype Event = Called | Entered(id: nat) | Attempted(id: nat, how: Attempt) | Woke(id: nat)

  predicate Enabled(s: State, e: Event) {
    match e
    case Called => true
    case Entered(id) => id < |s.calls| && s.calls[id].phase == Waiting && Settled(s.calls[id].ahead, s.released)
    case Attempted(id, how) => id < |s.calls| && s.calls[id].phase == Writing
    case Woke(id) => id < |s.calls| && s.calls[id].phase == BackingOff
  }

  /** Whether a finished attempt is followed by another one. */
  predicate Retries(c: Call, how: Attempt) {
    how == Busy && |c.tries| < RETRIES
  }

  function Step(s: State, e: Event): State
    requires Enabled(s, e)
  {
    match e
    case Called =>
      s.(tail := Then(s.tail, |s.calls|), calls := s.calls + [Call(s.tail, Waiting, [], 0)])
    case Entered(id) => s.(calls := s.calls[id := s.calls[id].(phase := Writing)])
    case Attempted(id, how) =>
      var c := s.calls[id];
      if Retries(c, how) then
        s.(calls := s.calls[id := c.(phase := BackingOff, tries := c.tries + [how],
                                     waited := c.waited + BACKOFF_MS * (|c.tries| + 1))])
      else
        s.(calls := s.calls[id := c.(phase := Over, tries := c.tries + [how])],
           released := s.released + {id})
    case Woke(id) => s.(calls := s.calls[id := s.calls[id].(phase := Writing)])
  }

  /** The module variable `tail` and the calls in flight, changed in place. */
  class Lock {
    var tail: Promise
    var calls: seq<Call>
    var released: set<nat>

    ghost function Model(): State
      reads this
    {
      State(tail, calls, released)
    }

    constructor ()
      ensures Model() == IDLE
    {
      tail, calls, released := Resolved, [], {};
    }

    /** Up to the first await: remember the tail, then extend it. */
    method Queue() returns (id: nat)
      modifies this`tail, this`calls
      ensures id == |old(calls)| && Model() == Step(old(Model()), Called)
    {
      id := |calls|;
      var ahead := tail;
      tail := Then(tail, id);
      calls := calls + [Call(ahead, Waiting, [], 0)];
    }

    method Enter(id: nat)
      requires Enabled(Model(), Entered(id))
      modifies this`calls
      ensures Model() == Step(old(Model()), Entered(id))
    {
      calls := calls[id := calls[id].(phase := Writing)];
    }

    /** One turn of the retry loop; the `finally` releases when it is the last. */
    method Attempt(id: nat, how: Attempt)
      requires Enabled(Model(), Attempted(id, how))
      modifies this`calls, this`released
      ensures Model() == Step(old(Model()), Attempted(id, how))
    {
      var call := calls[id];
      var attempt := |call.tries|;
      call := call.(tries := call.tries + [how]);
      if how.Returned? || attempt >= RETRIES || how != Busy {
        calls := calls[id := call.(phase := Over)];
        released := released + {id};
      } else {
        calls := calls[id := call.(phase := BackingOff, waited := call.waited + BACKOFF_MS * (attempt + 1))];
      }
    }

    method Wake(id: nat)
      requires Enabled(Model(), Woke(id))
      modifies this`calls
      ensures Model() == Step(old(Model()), Woke(id))
    {
      calls := calls[id := calls[id].(phase := Writing)];
    }
  }

  // ----- Runs -----

  predicate IsRun(s: State, es: seq<Event>)
    decreases |es|, 0
  {
    es == [] || (IsRun(s, es[..|es| - 1]) && Enabled(Run(s, es[..|es| - 1]), es[|es| - 1]))
  }

  function Run(s: State, es: seq<Event>): State
    requires IsRun(s, es)
    decreases |es|, 1
  {
    if es == [] then s else Step(Run(s, es[..|es| - 1]), es[|es| - 1])
  }

  // ----- The invariant -----

  /** The chain that holds calls 0 to n-1, in call order. */
  ghost function Chain(n: nat): Promise {
    if n == 0 then Resolved else Then(Chain(n - 1), n - 1)
  }

  /** Back-off before the attempt after `tries` busy ones: 120, 240, 360, ... */
  function TotalBackoff(tries: nat): nat {
    BACKOFF_MS * (tries * (tries + 1) / 2)
  }

  /** Every finished attempt but the last was busy. */
  ghost predicate BusyUntil(tries: seq<Attempt>, n: int) {
    n <= |tries| && forall i :: 0 <= i < n ==> tries[i] == Busy
  }

  ghost predicate CallInv(s: State, id: nat)
    requires id < |s.calls|
  {
    var c := s.calls[id];
    && c.ahead == Chain(id)
    && (id in s.released <==> c.phase == Over)
    && match c.phase
       case Waiting => c.tries == [] && c.waited == 0
       case Writing => |c.tries| <= RETRIES && BusyUntil(c.tries, |c.tries|) && c.waited == TotalBackoff(|c.tries|)
       case BackingOff => 1 <= |c.tries| <= RETRIES && BusyUntil(c.tries, |c.tries|) && c.waited == TotalBackoff(|c.tries|)
       case Over =>
         && 1 <= |c.tries| <= RETRIES + 1 && BusyUntil(c.tries, |c.tries| - 1)
         && c.waited == TotalBackoff(|c.tries| - 1)
         && !(|c.tries| <= RETRIES && c.tries[|c.tries| - 1] == Busy)
  }

  /** Calls before `turn` are over, calls after it wait. */
  ghost predicate InTurn(s: State, turn: nat) {
    && turn <= |s.calls|
    && (forall i :: 0 <= i < turn ==> s.calls[i].phase == Over)
    && (forall i :: turn < i < |s.calls| ==> s.calls[i].phase == Waiting)
    && (turn < |s.calls| ==> s.calls[turn].phase != Over)
  }

  ghost predicate Inv(s: State) {
    && s.tail == Chain(|s.calls|)
    && (forall i :: i in s.released ==> i < |s.calls|)
    && (forall i :: 0 <= i < |s.calls| ==> CallInv(s, i))
    && exists turn: nat :: InTurn(s, turn)
  }

  lemma {:induction false} ChainSettles(n: nat, released: set<nat>)
    ensures Settled(Chain(n), released) <==> forall i: nat :: i < n ==> i in released
  {
    if n > 0 {
      ChainSettles(n - 1, released);
    }
  }

  lemma CallIsKept(s: State, t: State, id: nat)
    requires id < |s.calls| <= |t.calls| && CallInv(s, id)
    requires t.calls[id] == s.calls[id] && t.released == s.released
    ensures CallInv(t, id)
  {
    hide TotalBackoff, BusyUntil, Chain;
  }

  lemma NewCallWaits(s: State)
    requires Inv(s)
    ensures CallInv(Step(s, Called), |s.calls|)
  {
    hide TotalBackoff, BusyUntil, InTurn;
  }

  lemma CallingKeepsInv(s: State)
    requires Inv(s)
    ensures Inv(Step(s, Called))
  {
    hide CallInv, Settled;
    var turn: nat :| InTurn(s, turn);
    var t := Step(s, Called);
    NewCallWaits(s);
    forall i | 0 <= i < |s.calls|
      ensures CallInv(t, i)
    {
      CallIsKept(s, t, i);
    }
    assert InTurn(t, turn);
  }

  lemma MovingKeepsInv(s: State, e: Event)
    requires Inv(s) && Enabled(s, e) && e != Called
    ensures Inv(Step(s, e))
  {
    var turn: nat :| InTurn(s, turn);
    var t, id := Step(s, e), e.id;
    assert CallInv(s, id) && CallInv(s, turn);
    OnlyInTurn(s, turn, id);
    MovedCall(s, e);
    OthersKeep(s, t, id);
    assert InTurn(t, if t.calls[id].phase == Over then turn + 1 else turn);
  }

  lemma MovedCall(s: State, e: Event)
    requires Enabled(s, e) && e != Called && CallInv(s, e.id)
    ensures CallInv(Step(s, e), e.id)
  {
    if e.Attempted? {
      var c := s.calls[e.id];
      var tries := c.tries + [e.how];
      assert forall i :: 0 <= i < |c.tries| ==> tries[i] == c.tries[i];
    }
  }

  lemma StepKeepsInv(s: State, e: Event)
    requires Inv(s) && Enabled(s, e)
    ensures Inv(Step(s, e))
  {
    if e == Called {
      CallingKeepsInv(s);
    } else {
      MovingKeepsInv(s, e);
    }
  }

  /** A call that can move, other than by being made, is the one whose turn it is. */
  lemma OnlyInTurn(s: State, turn: nat, id: nat)
    requires InTurn(s, turn) && id < |s.calls| && CallInv(s, id)
    requires turn < |s.calls| ==> CallInv(s, turn)
    requires Holds(s.calls[id]) || (s.calls[id].phase == Waiting && Settled(s.calls[id].ahead, s.released))
    ensures id == turn
  {
    ChainSettles(id, s.released);
  }

  lemma OthersKeep(s: State, t: State, id: nat)
    requires id < |s.calls| == |t.calls| && CallInv(t, id)
    requires forall i :: 0 <= i < |s.calls| && i != id ==> t.calls[i] == s.calls[i]
    requires forall i :: i != id ==> (i in t.released <==> i in s.released)
    requires forall i :: 0 <= i < |s.calls| ==> CallInv(s, i)
    ensures forall i :: 0 <= i < |t.calls| ==> CallInv(t, i)
  {
    forall i | 0 <= i < |t.calls|
      ensures CallInv(t, i)
    {
      assert CallInv(s, i);
    }
  }

  lemma {:induction false} RunKeepsInv(es: seq<Event>)
    requires IsRun(IDLE, es)
    ensures Inv(Run(IDLE, es))
  {
    if es == [] {
      assert InTurn(IDLE, 0);
    } else {
      RunKeepsInv(es[..|es| - 1]);
      StepKeepsInv(Run(IDLE, es[..|es| - 1]), es[|es| - 1]);
    }
  }

  // ----- What the lock promises -----

  /** Mutual exclusion over every interleaving. */
  lemma OneAtATime(es: seq<Event>, i: nat, j: nat)
    requires IsRun(IDLE, es)
    requires i < |Run(IDLE, es).calls| && j < |Run(IDLE, es).calls|
    requires Holds(Run(IDLE, es).calls[i]) && Holds(Run(IDLE, es).calls[j])
    ensures i == j
  {
    RunKeepsInv(es);
  }

  /** Calls enter in call order: everything called before an entering call is over,
      and everything called after it has not begun. */
  lemma FirstCalledFirstServed(es: seq<Event>, id: nat)
    requires IsRun(IDLE, es) && Enabled(Run(IDLE, es), Entered(id))
    ensures var s := Run(IDLE, es);
      && (forall i :: 0 <= i < id ==> s.calls[i].phase == Over)
      && (forall i :: id < i < |s.calls| ==> s.calls[i].phase == Waiting && s.calls[i].tries == [])
  {
    RunKeepsInv(es);
    var s := Run(IDLE, es);
    var turn: nat :| InTurn(s, turn);
    assert CallInv(s, id);
    OnlyInTurn(s, turn, id);
    forall i | id < i < |s.calls|
      ensures s.calls[i].tries == []
    {
      assert CallInv(s, i);
    }
  }

  /** However a write ends, in failure too, the next caller can enter at once. */
  lemma FailureLetsTheNextIn(es: seq<Event>, id: nat, how: Attempt)
    requires IsRun(IDLE, es) && Enabled(Run(IDLE, es), Attempted(id, how))
    requires !Retries(Run(IDLE, es).calls[id], how) && id + 1 < |Run(IDLE, es).calls|
    ensures Enabled(Step(Run(IDLE, es), Attempted(id, how)), Entered(id + 1))
  {
    RunKeepsInv(es);
    var s := Run(IDLE, es);
    var t := Step(s, Attempted(id, how));
    var turn: nat :| InTurn(s, turn);
    assert CallInv(s, id) && CallInv(s, id + 1);
    OnlyInTurn(s, turn, id);
    forall i: nat | i < id + 1
      ensures i in t.released
    {
      assert CallInv(s, i);
    }
    ChainSettles(id + 1, t.released);
  }

  /** No reachable state is stuck: while a call is unfinished, one that is can move. */
  lemma NeverStuck(es: seq<Event>, id: nat)
    requires IsRun(IDLE, es) && id < |Run(IDLE, es).calls| && Run(IDLE, es).calls[id].phase != Over
    ensures var s := Run(IDLE, es);
      exists turn: nat :: turn <= id &&
        (Enabled(s, Entered(turn)) || Enabled(s, Attempted(turn, Returned)) || Enabled(s, Woke(turn)))
  {
    RunKeepsInv(es);
    var s := Run(IDLE, es);
    var turn: nat :| InTurn(s, turn);
    assert turn <= id;
    assert CallInv(s, turn);
    forall i: nat | i < turn
      ensures i in s.released
    {
      assert CallInv(s, i);
    }
    ChainSettles(turn, s.released);
    assert Enabled(s, Entered(turn)) || Enabled(s, Attempted(turn, Returned)) || Enabled(s, Woke(turn));
  }

  /** How many of a call's attempts have been followed by a back-off. */
  function Backoffs(c: Call): nat {
    if c.phase == Over && c.tries != [] then |c.tries| - 1 else |c.tries|
  }

  /** At most five attempts for each call, each back-off 120 ms longer than the one before,
      so 1,200 ms at most, and a retry only ever after a busy file; a finished call returned,
      met another error, or found the file busy all five times. */
  lemma AttemptsAreBounded(es: seq<Event>, id: nat)
    requires IsRun(IDLE, es) && id < |Run(IDLE, es).calls|
    ensures var c := Run(IDLE, es).calls[id];
      && |c.tries| <= 5
      && c.waited == 60 * Backoffs(c) * (Backoffs(c) + 1) <= 1_200
      && (forall i :: 0 <= i < |c.tries| - 1 ==> c.tries[i] == Busy)
      && (c.phase == BackingOff ==> c.tries != [] && c.tries[|c.tries| - 1] == Busy && |c.tries| < 5)
      && (c.phase == Over ==> c.tries != [] && (c.tries[|c.tries| - 1] == Busy ==> |c.tries| == 5))
  {
    RunKeepsInv(es);
    var s := Run(IDLE, es);
    assert CallInv(s, id);
    hide Run, IsRun, Inv, TotalBackoff;
    BackoffIs(Backoffs(s.calls[id]));
  }

  lemma BackoffIs(n: nat)
    ensures n <= 4 ==> TotalBackoff(n) == 60 * n * (n + 1) <= 1_200
  {
    assert n <= 4 ==> n == 0 || n == 1 || n == 2 || n == 3 || n == 4;
  }

  /** How often a call's back-off has ended. */
  function Wakes(es: seq<Event>, id: nat): nat {
    if es == [] then 0 else Wakes(es[..|es| - 1], id) + if es[|es| - 1] == Woke(id) then 1 else 0
  }

  /** No attempt follows a busy one before its back-off has ended. */
  lemma {:induction false} EveryRetryWaits(es: seq<Event>, id: nat)
    requires IsRun(IDLE, es)
    ensures var calls := Run(IDLE, es).calls;
      if id < |calls| then Backoffs(calls[id]) == Wakes(es, id) + if calls[id].phase == BackingOff then 1 else 0
      else Wakes(es, id) == 0
  {
    if es != [] {
      EveryRetryWaits(es[..|es| - 1], id);
      RunKeepsInv(es[..|es| - 1]);
      hide Step, Inv, Backoffs;
      WaitsAfterBusy(Run(IDLE, es[..|es| - 1]), es[|es| - 1], id);
    }
  }

  function Waits(s: State, id: nat): nat {
    if id < |s.calls| then Backoffs(s.calls[id]) - (if s.calls[id].phase == BackingOff && s.calls[id].tries != [] then 1 else 0) else 0
  }

  lemma WaitsAfterBusy(s: State, e: Event, id: nat)
    requires Inv(s) && Enabled(s, e)
    ensures Waits(Step(s, e), id) == Waits(s, id) + if e == Woke(id) then 1 else 0
    ensures id < |Step(s, e).calls| && Step(s, e).calls[id].phase == BackingOff ==> Step(s, e).calls[id].tries != []
    ensures |s.calls| <= |Step(s, e).calls|
  {
    assert id < |s.calls| ==> CallInv(s, id);
    hide Inv, TotalBackoff, BusyUntil, Chain;
  }

  // ----- Liveness -----

  /** How many more steps a call can take. */
  function Remaining(c: Call): nat {
    match c.phase
    case Waiting => 2 * RETRIES + 2
    case Writing => if |c.tries| <= RETRIES then 2 * (RETRIES - |c.tries|) + 1 else 0
    case BackingOff => if |c.tries| <= RETRIES then 2 * (RETRIES - |c.tries|) + 2 else 0
    case Over => 0
  }

  function Work(calls: seq<Call>): nat {
    if calls == [] then 0 else Work(calls[..|calls| - 1]) + Remaining(calls[|calls| - 1])
  }

  lemma {:induction false} WorkUpdates(calls: seq<Call>, id: nat, c: Call)
    requires id < |calls|
    ensures Work(calls[id := c]) == Work(calls) - Remaining(calls[id]) + Remaining(c)
  {
    var last := |calls| - 1;
    if id < last {
      WorkUpdates(calls[..last], id, c);
      assert calls[id := c][..last] == calls[..last][id := c];
    } else {
      assert calls[id := c][..last] == calls[..last];
    }
  }

  lemma StepDoesWork(s: State, e: Event)
    requires Inv(s) && Enabled(s, e) && e != Called
    ensures Work(Step(s, e).calls) < Work(s.calls)
  {
    assert CallInv(s, e.id);
    WorkUpdates(s.calls, e.id, Step(s, e).calls[e.id]);
  }

  /** With no new callers a run from any reachable state is at most as long as the work
      outstanding, which is ten steps a call; since no state is stuck, all calls finish. */
  lemma {:induction false} RunsEnd(s: State, es: seq<Event>)
    requires Inv(s) && IsRun(s, es) && forall i :: 0 <= i < |es| ==> es[i] != Called
    ensures Inv(Run(s, es))
    ensures |es| + Work(Run(s, es).calls) <= Work(s.calls) <= (2 * RETRIES + 2) * |s.calls|
    decreases |es|
  {
    WorkIsBounded(s.calls);
    if es != [] {
      var front, e := es[..|es| - 1], es[|es| - 1];
      RunsEnd(s, front);
      StepKeepsInv(Run(s, front), e);
      StepDoesWork(Run(s, front), e);
    }
  }

  lemma {:induction false} WorkIsBounded(calls: seq<Call>)
    ensures Work(calls) <= (2 * RETRIES + 2) * |calls|
  {
    if calls != [] {
      WorkIsBounded(calls[..|calls| - 1]);
    }
  }
}
