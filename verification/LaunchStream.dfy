/** The counter behind the launch streams: how many one caller, and all of them, hold open. */
module LaunchStream {
  import opened Wrappers

  type Caller = string

  const PER_CALLER := 3
  const TOTAL := 200

  /** The shared registry's map, which keeps its callers in the order they came. */
  datatype Entries = Nobody | Also(caller: Caller, held: nat, rest: Entries)

  /** A granted slot. Refused ones release nothing and are not kept. */
  datatype Slot = Slot(caller: Caller, released: bool)

  datatype State = State(streams: Entries, slots: seq<Slot>)

  // ----- The registry as a map in insertion order -----

  function Total(es: Entries): nat {
    match es
    case Nobody => 0
    case Also(_, held, rest) => held + Total(rest)
  }

  predicate Has(es: Entries, caller: Caller) {
    es.Also? && (es.caller == caller || Has(es.rest, caller))
  }

  /** What the registry says of a caller; nothing is nought. */
  function Held(es: Entries, caller: Caller): nat {
    match es
    case Nobody => 0
    case Also(c, held, rest) => if c == caller then held else Held(rest, caller)
  }

  /** A caller already there keeps its place; a new one goes last. */
  function Put(es: Entries, caller: Caller, held: nat): Entries {
    match es
    case Nobody => Also(caller, held, Nobody)
    case Also(c, h, rest) => if c == caller then Also(c, held, rest) else Also(c, h, Put(rest, caller, held))
  }

  function Remove(es: Entries, caller: Caller): Entries {
    match es
    case Nobody => Nobody
    case Also(c, h, rest) => if c == caller then rest else Also(c, h, Remove(rest, caller))
  }

  /** One entry a caller. */
  predicate Keyed(es: Entries) {
    es.Also? ==> !Has(es.rest, es.caller) && Keyed(es.rest)
  }

  // ----- The two operations -----

  predicate Grants(s: State, caller: Caller) {
    Held(s.streams, caller) < PER_CALLER && Total(s.streams) < TOTAL
  }

  function Taken(s: State, caller: Caller): State {
    if Grants(s, caller)
    then State(Put(s.streams, caller, Held(s.streams, caller) + 1), s.slots + [Slot(caller, false)])
    else s
  }

  function Lowered(es: Entries, caller: Caller): Entries {
    var held := Held(es, caller);
    if held <= 1 then Remove(es, caller) else Put(es, caller, held - 1)
  }

  function Released(s: State, k: nat): State {
    if k >= |s.slots| || s.slots[k].released then s
    else
      var caller := s.slots[k].caller;
      State(Lowered(s.streams, caller), s.slots[k := Slot(caller, true)])
  }

  class Registry {
    var streams: Entries
    var slots: seq<Slot>

    constructor ()
      ensures Model() == State(Nobody, [])
    {
      streams, slots := Nobody, [];
    }

    ghost function Model(): State
      reads this
    {
      State(streams, slots)
    }

    /** What health reports. */
    method OpenStreamCount() returns (total: nat)
      ensures total == Total(streams)
    {
      total := 0;
      var left := streams;
      while left.Also?
        invariant total + Total(left) == Total(streams)
        decreases left
      {
        total := total + left.held;
        left := left.rest;
      }
    }

    method TakeStreamSlot(caller: Caller) returns (slot: Option<nat>)
      modifies this
      ensures Model() == Taken(old(Model()), caller)
      ensures slot == if Grants(old(Model()), caller) then Some(|old(slots)|) else None
    {
      var total := OpenStreamCount();
      var mine := Held(streams, caller);
      if mine >= PER_CALLER || total >= TOTAL { return None; }
      streams := Put(streams, caller, mine + 1);
      slots := slots + [Slot(caller, false)];
      return Some(|slots| - 1);
    }

    method Release(slot: nat)
      requires slot < |slots|
      modifies this
      ensures Model() == Released(old(Model()), slot)
    {
      if slots[slot].released { return; }
      var caller := slots[slot].caller;
      slots := slots[slot := Slot(caller, true)];
      var held := Held(streams, caller);
      if held <= 1 { streams := Remove(streams, caller); } else { streams := Put(streams, caller, held - 1); }
    }
  }

  // ----- What the registry should say -----

  predicate IsOpen(slot: Slot, caller: Caller) {
    slot.caller == caller && !slot.released
  }

  /** The slots a caller was granted and has not released. */
  function OpenBy(slots: seq<Slot>, caller: Caller): nat {
    if slots == [] then 0 else OpenBy(slots[..|slots| - 1], caller) + if IsOpen(slots[|slots| - 1], caller) then 1 else 0
  }

  function Open(slots: seq<Slot>): nat {
    if slots == [] then 0 else Open(slots[..|slots| - 1]) + if slots[|slots| - 1].released then 0 else 1
  }

  predicate InRange(es: Entries) {
    es.Also? ==> 1 <= es.held <= PER_CALLER && InRange(es.rest)
  }

  /** Each caller's count is its open slots, stored only while there are any, and within
      its limit; and all of them together are within theirs. */
  ghost predicate Inv(s: State) {
    && Keyed(s.streams)
    && InRange(s.streams)
    && (forall c :: Held(s.streams, c) == OpenBy(s.slots, c))
    && Total(s.streams) == Open(s.slots)
    && Total(s.streams) <= TOTAL
  }

  // ----- Lemmas about the map -----

  lemma {:induction false} HasIff(es: Entries, caller: Caller)
    requires InRange(es)
    ensures Has(es, caller) <==> Held(es, caller) >= 1
    ensures Held(es, caller) <= PER_CALLER
  {
    if es.Also? {
      HasIff(es.rest, caller);
    }
  }

  lemma {:induction false} HeldOfAbsent(es: Entries, caller: Caller)
    ensures !Has(es, caller) ==> Held(es, caller) == 0
  {
    if es.Also? {
      HeldOfAbsent(es.rest, caller);
    }
  }

  lemma {:induction false} PutHolds(es: Entries, caller: Caller, held: nat, c: Caller)
    ensures Has(Put(es, caller, held), c) <==> c == caller || Has(es, c)
    ensures Held(Put(es, caller, held), c) == if c == caller then held else Held(es, c)
  {
    if es.Also? {
      PutHolds(es.rest, caller, held, c);
    }
  }

  lemma {:induction false} PutKeeps(es: Entries, caller: Caller, held: nat)
    requires Keyed(es) && InRange(es) && 1 <= held <= PER_CALLER
    ensures Keyed(Put(es, caller, held)) && InRange(Put(es, caller, held))
    ensures Total(Put(es, caller, held)) == Total(es) - Held(es, caller) + held
  {
    if es.Also? && es.caller != caller {
      PutKeeps(es.rest, caller, held);
      PutHolds(es.rest, caller, held, es.caller);
    }
  }

  lemma {:induction false} RemoveHolds(es: Entries, caller: Caller, c: Caller)
    requires Keyed(es)
    ensures Has(Remove(es, caller), c) <==> c != caller && Has(es, c)
    ensures Held(Remove(es, caller), c) == if c == caller then 0 else Held(es, c)
  {
    if es.Also? {
      RemoveHolds(es.rest, caller, c);
      HeldOfAbsent(es.rest, es.caller);
    }
  }

  lemma {:induction false} RemoveKeeps(es: Entries, caller: Caller)
    requires Keyed(es) && InRange(es)
    ensures Keyed(Remove(es, caller)) && InRange(Remove(es, caller))
    ensures Total(Remove(es, caller)) == Total(es) - Held(es, caller)
  {
    if es.Also? && es.caller != caller {
      RemoveKeeps(es.rest, caller);
      RemoveHolds(es.rest, caller, es.caller);
    }
  }

  lemma LoweredHolds(es: Entries, caller: Caller, c: Caller)
    requires Keyed(es) && Held(es, caller) >= 1
    ensures Held(Lowered(es, caller), c) == Held(es, c) - if c == caller then 1 else 0
  {
    RemoveHolds(es, caller, c);
    PutHolds(es, caller, Held(es, caller) - 1, c);
  }

  lemma LoweredKeeps(es: Entries, caller: Caller)
    requires Keyed(es) && InRange(es) && Held(es, caller) >= 1
    ensures Keyed(Lowered(es, caller)) && InRange(Lowered(es, caller))
    ensures Total(Lowered(es, caller)) == Total(es) - 1
  {
    HasIff(es, caller);
    RemoveKeeps(es, caller);
    if Held(es, caller) > 1 {
      PutKeeps(es, caller, Held(es, caller) - 1);
    }
  }

  // ----- Lemmas about the slots -----

  lemma OpenSnoc(slots: seq<Slot>, slot: Slot, c: Caller)
    ensures OpenBy(slots + [slot], c) == OpenBy(slots, c) + if IsOpen(slot, c) then 1 else 0
    ensures Open(slots + [slot]) == Open(slots) + if slot.released then 0 else 1
  {
    assert (slots + [slot])[..|slots|] == slots;
  }

  lemma {:induction false} OpenAfterRelease(slots: seq<Slot>, k: nat, c: Caller)
    requires k < |slots| && !slots[k].released
    ensures var after := slots[k := Slot(slots[k].caller, true)];
      && OpenBy(after, c) == OpenBy(slots, c) - (if slots[k].caller == c then 1 else 0)
      && Open(after) == Open(slots) - 1
  {
    var n := |slots| - 1;
    var after := slots[k := Slot(slots[k].caller, true)];
    if k == n {
      assert after[..n] == slots[..n];
    } else {
      OpenAfterRelease(slots[..n], k, c);
      assert after[..n] == slots[..n][k := Slot(slots[k].caller, true)];
    }
  }

  lemma {:induction false} OpenByIsPart(slots: seq<Slot>, c: Caller)
    ensures OpenBy(slots, c) <= Open(slots)
  {
    if slots != [] {
      OpenByIsPart(slots[..|slots| - 1], c);
    }
  }

  // ----- The accounts balance, over every run -----

  /** A slot is refused exactly when the caller has its three open or everybody has theirs. */
  lemma RefusedExactlyWhenFull(s: State, caller: Caller)
    requires Inv(s)
    ensures Grants(s, caller) <==> OpenBy(s.slots, caller) < 3 && Open(s.slots) < 200
  {
  }

  lemma TakenKeepsInv(s: State, caller: Caller)
    requires Inv(s)
    ensures Inv(Taken(s, caller))
  {
    if Grants(s, caller) {
      var held := Held(s.streams, caller) + 1;
      PutKeeps(s.streams, caller, held);
      OpenSnoc(s.slots, Slot(caller, false), caller);
      forall c
        ensures Held(Put(s.streams, caller, held), c) == OpenBy(s.slots + [Slot(caller, false)], c)
      {
        PutHolds(s.streams, caller, held, c);
        OpenSnoc(s.slots, Slot(caller, false), c);
      }
    }
  }

  lemma ReleasedKeepsInv(s: State, k: nat)
    requires Inv(s)
    ensures Inv(Released(s, k))
  {
    if k < |s.slots| && !s.slots[k].released {
      var caller := s.slots[k].caller;
      OpenAfterRelease(s.slots, k, caller);
      LoweredKeeps(s.streams, caller);
      forall c
        ensures Held(Lowered(s.streams, caller), c) == OpenBy(s.slots[k := Slot(caller, true)], c)
      {
        OpenAfterRelease(s.slots, k, c);
        LoweredHolds(s.streams, caller, c);
      }
    }
  }

  datatype Event = Take(caller: Caller) | Release(slot: nat)

  function Step(s: State, e: Event): State {
    match e
    case Take(caller) => Taken(s, caller)
    case Release(slot) => Released(s, slot)
  }

  function Run(es: seq<Event>): State {
    if es == [] then State(Nobody, []) else Step(Run(es[..|es| - 1]), es[|es| - 1])
  }

  /** However slots are taken and given back, in any order and any number of times over,
      the registry counts exactly the ones that are open. */
  lemma {:induction false} CountsAreOpenSlots(es: seq<Event>)
    ensures Inv(Run(es))
  {
    if es != [] {
      CountsAreOpenSlots(es[..|es| - 1]);
      match es[|es| - 1] {
        case Take(caller) => TakenKeepsInv(Run(es[..|es| - 1]), caller);
        case Release(slot) => ReleasedKeepsInv(Run(es[..|es| - 1]), slot);
      }
    }
  }

  /** Nothing is left behind once every slot has been given back. */
  lemma NothingIsStranded(es: seq<Event>)
    requires forall k :: 0 <= k < |Run(es).slots| ==> Run(es).slots[k].released
    ensures Run(es).streams == Nobody
  {
    CountsAreOpenSlots(es);
    AllReleased(Run(es).slots);
    TotalOfSome(Run(es).streams);
  }

  lemma {:induction false} AllReleased(slots: seq<Slot>)
    requires forall k :: 0 <= k < |slots| ==> slots[k].released
    ensures Open(slots) == 0
  {
    if slots != [] {
      AllReleased(slots[..|slots| - 1]);
    }
  }

  lemma TotalOfSome(es: Entries)
    requires InRange(es) && Total(es) == 0
    ensures es == Nobody
  {
  }

  // ----- What one call undoes -----

  /** Releasing a slot again, as a close that follows an abort does, changes nothing. */
  lemma ReleaseIsIdempotent(s: State, k: nat)
    ensures Released(Released(s, k), k) == Released(s, k)
  {
  }

  lemma {:induction false} PutBack(es: Entries, caller: Caller, more: nat)
    ensures Has(es, caller) ==> Put(Put(es, caller, more), caller, Held(es, caller)) == es
    ensures !Has(es, caller) ==> Remove(Put(es, caller, more), caller) == es
  {
    if es.Also? {
      PutBack(es.rest, caller, more);
    }
  }

  lemma LoweredPut(es: Entries, caller: Caller, held: nat)
    requires InRange(es) && held == Held(es, caller)
    ensures Lowered(Put(es, caller, held + 1), caller) == es
  {
    PutHolds(es, caller, held + 1, caller);
    HasIff(es, caller);
    PutBack(es, caller, held + 1);
  }

  /** A take and its release leave the registry as it was, entry for entry. */
  lemma TakeThenRelease(s: State, caller: Caller)
    requires Inv(s) && Grants(s, caller)
    ensures var after := Released(Taken(s, caller), |s.slots|);
      after.streams == s.streams && after.slots == s.slots + [Slot(caller, true)]
  {
    LoweredPut(s.streams, caller, Held(s.streams, caller));
    assert (s.slots + [Slot(caller, false)])[|s.slots| := Slot(caller, true)] == s.slots + [Slot(caller, true)];
  }

  /** A caller that gives a slot back can always have one. */
  lemma RoomAfterRelease(s: State, k: nat)
    requires Inv(s) && k < |s.slots| && !s.slots[k].released
    ensures Grants(Released(s, k), s.slots[k].caller)
  {
    var caller := s.slots[k].caller;
    ReleasedKeepsInv(s, k);
    OpenAfterRelease(s.slots, k, caller);
    HasIff(s.streams, caller);
    OpenByIsPart(s.slots, caller);
  }
}
