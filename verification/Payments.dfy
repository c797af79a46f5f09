/** Paying for practice balance: intents, settlements that any number of confirmations can
    interleave, and the query that tells the all-time board what was bought. */
module Payments {
  import opened PracticeTiers
  import opened Wrappers

  type User = string
  type Signature = string

  const FREE_PLAY_START: nat := 10_000_000_000

  datatype Purpose = SeasonEntry | CoachUpgrade | PracticeSol

  datatype Intent = Intent(user: User, season: Option<nat>, purpose: Purpose, amount: nat)

  /** A row of the payments table; the status is text. */
  datatype Payment = Payment(
    user: User, season: Option<nat>, purpose: Purpose, amount: nat, signature: Signature, status: string
  )

  datatype Outcome = Settled(isFresh: bool) | NoAccount | NoLongerSold

  /** A confirmation of an intent by a signature. Until its transaction it has no outcome. */
  datatype Call = Call(intent: Intent, signature: Signature, outcome: Option<Outcome>)

  /** `balances` holds the free-play accounts. */
  datatype State = State(intents: seq<Intent>, payments: seq<Payment>, balances: map<User, nat>, calls: seq<Call>)

  const NEW := State([], [], map[], [])

  // ----- What a payment buys -----

  function FindPrice(ts: Tiers, price: int): Option<Tier> {
    if ts.Nothing? then None
    else if ts.first.price == price then Some(ts.first)
    else FindPrice(ts.rest, price)
  }

  function TierAt(price: int): Option<Tier> {
    FindPrice(BY_PRICE, price)
  }

  lemma {:induction false} FoundIsListed(ts: Tiers, price: int)
    ensures FindPrice(ts, price).Some? ==> Lists(ts, FindPrice(ts, price).value) && FindPrice(ts, price).value.price == price
  {
    if ts.More? {
      FoundIsListed(ts.rest, price);
    }
  }

  lemma SoldIsFound(t: Tier)
    requires OnTable(t)
    ensures TierAt(t.price) == Some(t)
  {
    var upToTen := BY_PRICE.rest.rest.rest;
    assert t == TEN || t == THREE || t == ONE ==> FindPrice(upToTen, t.price) == Some(t) by {
      assert FindPrice(upToTen.rest.rest, ONE.price) == Some(ONE);
    }
    assert FindPrice(BY_PRICE.rest, t.price) == if t == FIFTY || t == TWENTY_FIVE then Some(t) else FindPrice(upToTen, t.price);
  }

  /** What settling a payment of this amount for this purpose credits. */
  function CreditOf(purpose: Purpose, amount: nat): nat {
    if purpose == PracticeSol && TierAt(amount).Some? then CreditFor(TierAt(amount).value) else 0
  }

  predicate Recorded(payments: seq<Payment>, signature: Signature) {
    payments != [] &&
    (payments[|payments| - 1].signature == signature || Recorded(payments[..|payments| - 1], signature))
  }

  // ----- The steps -----

  datatype Event =
    | SignedIn(user: User)
    | Bought(user: User, tier: Tier)
    | Entering(user: User, season: nat, cost: nat)
    | Confirmed(intent: nat, signature: Signature)
    | Transacted(call: nat)
    | Traded(user: User, delta: int)

  predicate Enabled(s: State, e: Event) {
    match e
    case SignedIn(_) => true
    case Bought(_, tier) => OnTable(tier)
    case Entering(_, _, _) => true
    case Confirmed(intent, _) => intent < |s.intents|
    case Transacted(call) => call < |s.calls| && s.calls[call].outcome.None?
    case Traded(user, delta) => user in s.balances && s.balances[user] + delta >= 0
  }

  function Ensured(balances: map<User, nat>, user: User): map<User, nat> {
    if user in balances then balances else balances[user := FREE_PLAY_START]
  }

  /** The first look: a signature that is already recorded is not settled again. */
  function Looked(s: State, intent: Intent, signature: Signature): Option<Outcome> {
    if intent.purpose == PracticeSol && TierAt(intent.amount).None? then Some(NoLongerSold)
    else if Recorded(s.payments, signature) then Some(Settled(false))
    else None
  }

  function RowFor(c: Call): Payment {
    Payment(c.intent.user, c.intent.season, c.intent.purpose, c.intent.amount, c.signature, "verified")
  }

  predicate Refused(s: State, c: Call) {
    c.intent.purpose == PracticeSol && c.intent.user !in s.balances
  }

  /** The transaction: the payment and its credit, or neither. The unique signature turns a
      second one into the first one's answer. */
  function Transact(s: State, call: nat): State
    requires call < |s.calls|
  {
    var c := s.calls[call];
    if Recorded(s.payments, c.signature) then Answered(s, call, Settled(false))
    else if Refused(s, c) then Answered(s, call, NoAccount)
    else
      Answered(s, call, Settled(true)).(
        payments := s.payments + [RowFor(c)],
        balances := Credited(s.balances, c.intent)
      )
  }

  function Credited(balances: map<User, nat>, intent: Intent): map<User, nat> {
    if intent.purpose == PracticeSol && intent.user in balances
    then balances[intent.user := balances[intent.user] + CreditOf(intent.purpose, intent.amount)]
    else balances
  }

  function Answered(s: State, call: nat, outcome: Outcome): State
    requires call < |s.calls|
  {
    s.(calls := s.calls[call := s.calls[call].(outcome := Some(outcome))])
  }

  function Step(s: State, e: Event): State
    requires Enabled(s, e)
  {
    match e
    case SignedIn(user) => s.(balances := Ensured(s.balances, user))
    case Bought(user, tier) =>
      s.(balances := Ensured(s.balances, user),
         intents := s.intents + [Intent(user, None, PracticeSol, tier.price)])
    case Entering(user, season, cost) => s.(intents := s.intents + [Intent(user, Some(season), SeasonEntry, cost)])
    case Confirmed(intent, signature) =>
      var i := s.intents[intent];
      s.(calls := s.calls + [Call(i, signature, Looked(s, i, signature))])
    case Transacted(call) => Transact(s, call)
    case Traded(user, delta) => s.(balances := s.balances[user := s.balances[user] + delta])
  }

  /** The tables and the confirmations in flight, changed in place. */
  class Till {
    var intents: seq<Intent>
    var payments: seq<Payment>
    var balances: map<User, nat>
    var calls: seq<Call>

    ghost function Model(): State
      reads this
    {
      State(intents, payments, balances, calls)
    }

    constructor ()
      ensures Model() == NEW
    {
      intents, payments, balances, calls := [], [], map[], [];
    }

    /** Ask to buy a tier: the account first, so that there is somewhere to credit. */
    method Buy(user: User, tier: Tier)
      requires OnTable(tier)
      modifies this`intents, this`balances
      ensures Model() == Step(old(Model()), Bought(user, tier))
    {
      if user !in balances { balances := balances[user := FREE_PLAY_START]; }
      intents := intents + [Intent(user, None, PracticeSol, tier.price)];
    }

    method Confirm(intent: nat, signature: Signature)
      requires Enabled(Model(), Confirmed(intent, signature))
      modifies this`calls
      ensures Model() == Step(old(Model()), Confirmed(intent, signature))
    {
      var i := intents[intent];
      var outcome: Option<Outcome> := None;
      if i.purpose == PracticeSol && TierAt(i.amount).None? {
        outcome := Some(NoLongerSold);
      } else {
        var found := IsRecorded(signature);
        if found { outcome := Some(Settled(false)); }
      }
      calls := calls + [Call(i, signature, outcome)];
    }

    method IsRecorded(signature: Signature) returns (found: bool)
      ensures found <==> Recorded(payments, signature)
    {
      found := false;
      for i := 0 to |payments|
        invariant found <==> Recorded(payments[..i], signature)
      {
        assert payments[..i + 1][..i] == payments[..i];
        found := found || payments[i].signature == signature;
      }
      assert payments[..|payments|] == payments;
    }

    /** Insert, credit, and roll the insert back where there is nobody to credit. */
    method SettlePayment(call: nat)
      requires Enabled(Model(), Transacted(call))
      modifies this`payments, this`balances, this`calls
      ensures Model() == Step(old(Model()), Transacted(call))
    {
      var c := calls[call];
      var taken := IsRecorded(c.signature);
      if taken {
        calls := calls[call := c.(outcome := Some(Settled(false)))];
        return;
      }
      var before := payments;
      payments := payments + [Payment(c.intent.user, c.intent.season, c.intent.purpose, c.intent.amount, c.signature, "verified")];
      if c.intent.purpose == PracticeSol {
        if c.intent.user !in balances {
          payments := before;
          calls := calls[call := c.(outcome := Some(NoAccount))];
          return;
        }
        balances := balances[c.intent.user := balances[c.intent.user] + CreditOf(PracticeSol, c.intent.amount)];
      }
      calls := calls[call := c.(outcome := Some(Settled(true)))];
    }
  }

  // ----- The query behind the board -----

  /** A missing season reads as nought. */
  function KeyOf(season: Option<nat>): nat {
    season.GetOr(0)
  }

  predicate Counts(p: Payment, status: string, user: User, season: nat) {
    p.purpose == PracticeSol && p.status == status && p.user == user && KeyOf(p.season) == season
  }

  /** What a query for one status sums under one trader and season. */
  function Purchased(payments: seq<Payment>, status: string, user: User, season: nat): nat {
    if payments == [] then 0
    else
      var p := payments[|payments| - 1];
      Purchased(payments[..|payments| - 1], status, user, season) + if Counts(p, status, user, season) then p.amount else 0
  }

  /** The loop over the rows, into a map keyed by trader and season. */
  method SumPurchases(payments: seq<Payment>) returns (paid: map<(User, nat), nat>)
    ensures forall user, season: nat ::
      (if (user, season) in paid then paid[(user, season)] else 0) == Purchased(payments, "settled", user, season)
  {
    paid := map[];
    for i := 0 to |payments|
      invariant forall user, season: nat ::
        (if (user, season) in paid then paid[(user, season)] else 0) == Purchased(payments[..i], "settled", user, season)
    {
      assert payments[..i + 1][..i] == payments[..i];
      var p := payments[i];
      if p.purpose == PracticeSol && p.status == "settled" {
        var key := (p.user, KeyOf(p.season));
        paid := paid[key := (if key in paid then paid[key] else 0) + p.amount];
      }
    }
    assert payments[..|payments|] == payments;
  }

  // ----- Runs -----

  predicate IsRun(s: State, es: seq<Event>)
    decreases |es|, 0
  {
    es == [] || (IsRun(s, es[..|es| - 1]) && Enabled(Run(s, es[..|es| - 1]), es[|es| - 1]))
  }

  function Run(s: State, es: seq<Event>): State
    requires IsRun(s, es)
    decreases |es|, 1
  {
    if es == [] then s else Step(Run(s, es[..|es| - 1]), es[|es| - 1])
  }

  // ----- What every run keeps -----

  /** Practice balance is sold through the store alone: with no season, at a tier's price. */
  predicate FromTheStore(purpose: Purpose, season: Option<nat>, amount: nat) {
    purpose == PracticeSol ==> season.None? && TierAt(amount).Some?
  }

  predicate SoundIntent(i: Intent) {
    FromTheStore(i.purpose, i.season, i.amount)
  }

  predicate SoundPayment(p: Payment) {
    p.status == "verified" && FromTheStore(p.purpose, p.season, p.amount)
  }

  ghost predicate RowsInv(s: State) {
    && (forall i :: 0 <= i < |s.intents| ==> SoundIntent(s.intents[i]))
    && (forall i :: 0 <= i < |s.calls| ==> SoundIntent(s.calls[i].intent))
    && (forall i :: 0 <= i < |s.payments| ==> SoundPayment(s.payments[i]))
  }

  lemma StepKeepsRows(s: State, e: Event)
    requires RowsInv(s) && Enabled(s, e)
    ensures RowsInv(Step(s, e))
  {
    if e.Bought? {
      SoldIsFound(e.tier);
    }
    hide TierAt, Recorded, Credited, Ensured, CreditOf;
  }

  lemma {:induction false} RunKeepsRows(es: seq<Event>)
    requires IsRun(NEW, es)
    ensures RowsInv(Run(NEW, es))
  {
    if es != [] {
      hide RowsInv, Step;
      RunKeepsRows(es[..|es| - 1]);
      StepKeepsRows(Run(NEW, es[..|es| - 1]), es[|es| - 1]);
    } else {
      assert RowsInv(NEW);
    }
  }

  /** A confirmation is answered at once if it is for a purchase at a price no longer sold,
      or by a signature already recorded, and then never settles; any other waits for its
      transaction. */
  lemma AnsweredAtOnceIff(s: State, intent: nat, signature: Signature)
    requires intent < |s.intents|
    ensures var i, t := s.intents[intent], Step(s, Confirmed(intent, signature));
      var call := t.calls[|s.calls|];
      var unsold := i.purpose == PracticeSol && forall tier :: Lists(BY_PRICE, tier) ==> tier.price != i.amount;
      && |t.calls| == |s.calls| + 1 && call.intent == i && call.signature == signature
      && (call.outcome == Some(NoLongerSold) <==> unsold)
      && (call.outcome == Some(Settled(false)) <==> !unsold && exists p :: p in s.payments && p.signature == signature)
      && (Enabled(t, Transacted(|s.calls|)) <==> !unsold && forall p :: p in s.payments ==> p.signature != signature)
  {
    RecordedIff(s.payments, signature);
    FoundIff(BY_PRICE, s.intents[intent].amount);
    hide Recorded, FindPrice, Lists;
  }

  lemma {:induction false} RecordedIff(payments: seq<Payment>, signature: Signature)
    ensures Recorded(payments, signature) <==> exists p :: p in payments && p.signature == signature
  {
    if payments != [] {
      RecordedIff(payments[..|payments| - 1], signature);
      assert payments == payments[..|payments| - 1] + [payments[|payments| - 1]];
    }
  }

  lemma {:induction false} FoundIff(ts: Tiers, price: int)
    ensures FindPrice(ts, price).None? <==> forall tier :: Lists(ts, tier) ==> tier.price != price
  {
    if ts.More? {
      FoundIff(ts.rest, price);
      assert Lists(ts, ts.first);
    }
  }

  /** An intent stays what it was made as. */
  lemma IntentsStand(s: State, e: Event)
    requires Enabled(s, e)
    ensures s.intents <= Step(s, e).intents
  {
    hide Recorded, TierAt, Credited;
  }

  // ----- A payment once, and its credit with it -----

  /** How many rows carry a signature, and how many confirmations say they settled it. */
  function RowsOf(payments: seq<Payment>, signature: Signature): nat {
    if payments == [] then 0
    else RowsOf(payments[..|payments| - 1], signature) + if payments[|payments| - 1].signature == signature then 1 else 0
  }

  predicate SettledIt(c: Call, signature: Signature) {
    c.signature == signature && c.outcome == Some(Settled(true))
  }

  function FreshOf(calls: seq<Call>, signature: Signature): nat {
    if calls == [] then 0
    else FreshOf(calls[..|calls| - 1], signature) + if SettledIt(calls[|calls| - 1], signature) then 1 else 0
  }

  ghost predicate OnceInv(s: State, signature: Signature) {
    && RowsOf(s.payments, signature) == FreshOf(s.calls, signature)
    && RowsOf(s.payments, signature) == (if Recorded(s.payments, signature) then 1 else 0)
  }

  lemma RowsSnoc(payments: seq<Payment>, p: Payment, signature: Signature)
    ensures RowsOf(payments + [p], signature) == RowsOf(payments, signature) + if p.signature == signature then 1 else 0
    ensures Recorded(payments + [p], signature) <==> p.signature == signature || Recorded(payments, signature)
  {
    assert (payments + [p])[..|payments|] == payments;
  }

  lemma FreshSnoc(calls: seq<Call>, c: Call, signature: Signature)
    ensures FreshOf(calls + [c], signature) == FreshOf(calls, signature) + if SettledIt(c, signature) then 1 else 0
  {
    assert (calls + [c])[..|calls|] == calls;
  }

  lemma {:induction false} FreshUpdate(calls: seq<Call>, i: nat, c: Call, signature: Signature)
    requires i < |calls| && !SettledIt(calls[i], signature)
    ensures FreshOf(calls[i := c], signature) == FreshOf(calls, signature) + if SettledIt(c, signature) then 1 else 0
  {
    var front, last := calls[..|calls| - 1], calls[|calls| - 1];
    if i == |calls| - 1 {
      assert calls[i := c][..i] == front;
    } else {
      FreshUpdate(front, i, c, signature);
      assert calls[i := c][..|calls| - 1] == front[i := c];
    }
  }

  lemma TransactKeepsOnce(s: State, call: nat, signature: Signature)
    requires OnceInv(s, signature) && Enabled(s, Transacted(call))
    ensures OnceInv(Transact(s, call), signature)
  {
    var c, t := s.calls[call], Transact(s, call);
    hide RowsOf, FreshOf, Credited;
    FreshUpdate(s.calls, call, t.calls[call], signature);
    if t.calls[call].outcome == Some(Settled(true)) {
      RowsSnoc(s.payments, RowFor(c), signature);
    }
    hide Recorded;
  }

  lemma StepKeepsOnce(s: State, e: Event, signature: Signature)
    requires OnceInv(s, signature) && Enabled(s, e)
    ensures OnceInv(Step(s, e), signature)
  {
    hide RowsOf, FreshOf, Recorded, TierAt, Transact;
    if e.Confirmed? {
      var i := s.intents[e.intent];
      FreshSnoc(s.calls, Call(i, e.signature, Looked(s, i, e.signature)), signature);
    } else if e.Transacted? {
      TransactKeepsOnce(s, e.call, signature);
    }
  }

  /** However a payment is confirmed, and however often and in whatever interleaving, it is
      recorded at most once, and it is recorded exactly if one confirmation, and no other,
      is told that it was the one to settle it. */
  lemma {:induction false} SettledOnce(es: seq<Event>, signature: Signature)
    requires IsRun(NEW, es)
    ensures var s := Run(NEW, es);
      RowsOf(s.payments, signature) == FreshOf(s.calls, signature) == (if Recorded(s.payments, signature) then 1 else 0)
  {
    if es != [] {
      SettledOnce(es[..|es| - 1], signature);
      StepKeepsOnce(Run(NEW, es[..|es| - 1]), es[|es| - 1], signature);
    }
  }

  /** Everything a trader's payments credited. */
  function CreditedTo(payments: seq<Payment>, user: User): nat {
    if payments == [] then 0
    else
      var p := payments[|payments| - 1];
      CreditedTo(payments[..|payments| - 1], user) + if p.user == user then CreditOf(p.purpose, p.amount) else 0
  }

  /** Everything a trader made or lost by trading. */
  function TradedBy(es: seq<Event>, user: User): int {
    if es == [] then 0
    else
      var e := es[|es| - 1];
      TradedBy(es[..|es| - 1], user) + if e.Traded? && e.user == user then e.delta else 0
  }

  ghost predicate CreditInv(s: State, user: User, traded: int) {
    if user in s.balances then s.balances[user] == FREE_PLAY_START + traded + CreditedTo(s.payments, user)
    else traded == 0 && CreditedTo(s.payments, user) == 0
  }

  lemma CreditedSnoc(payments: seq<Payment>, p: Payment, user: User)
    ensures CreditedTo(payments + [p], user) == CreditedTo(payments, user) + if p.user == user then CreditOf(p.purpose, p.amount) else 0
  {
    assert (payments + [p])[..|payments|] == payments;
  }

  lemma TransactKeepsCredit(s: State, call: nat, user: User, traded: int)
    requires CreditInv(s, user, traded) && call < |s.calls|
    ensures CreditInv(Transact(s, call), user, traded)
  {
    hide Recorded, TierAt, CreditedTo;
    CreditedSnoc(s.payments, RowFor(s.calls[call]), user);
  }

  lemma StepKeepsCredit(s: State, e: Event, user: User, traded: int)
    requires CreditInv(s, user, traded) && Enabled(s, e)
    ensures CreditInv(Step(s, e), user, traded + if e.Traded? && e.user == user then e.delta else 0)
  {
    hide Transact, CreditedTo, Looked;
    if e.Transacted? {
      TransactKeepsCredit(s, e.call, user, traded);
    }
  }

  /** No credit without a payment and no payment without its credit: an account is worth
      its opening balance, what its trades came to and what its recorded payments bought,
      to the lamport, and whoever has no account has paid for nothing. */
  lemma {:induction false} CreditsMatchPayments(es: seq<Event>, user: User)
    requires IsRun(NEW, es)
    ensures var s := Run(NEW, es);
      if user in s.balances then s.balances[user] == FREE_PLAY_START + TradedBy(es, user) + CreditedTo(s.payments, user)
      else TradedBy(es, user) == 0 && CreditedTo(s.payments, user) == 0
  {
    if es != [] {
      CreditsMatchPayments(es[..|es| - 1], user);
      StepKeepsCredit(Run(NEW, es[..|es| - 1]), es[|es| - 1], user, TradedBy(es[..|es| - 1], user));
    }
  }

  // ----- What the board is told -----

  predicate AllSound(payments: seq<Payment>) {
    payments == [] || (SoundPayment(payments[|payments| - 1]) && AllSound(payments[..|payments| - 1]))
  }

  lemma {:induction false} RowsAreSound(payments: seq<Payment>)
    requires forall i :: 0 <= i < |payments| ==> SoundPayment(payments[i])
    ensures AllSound(payments)
  {
    if payments != [] {
      RowsAreSound(payments[..|payments| - 1]);
    }
  }

  /** Everything a trader paid for practice balance. */
  function PaidBy(payments: seq<Payment>, user: User): nat {
    if payments == [] then 0
    else
      var p := payments[|payments| - 1];
      PaidBy(payments[..|payments| - 1], user) + if p.purpose == PracticeSol && p.user == user then p.amount else 0
  }

  lemma {:induction false} SettledIsNobody(payments: seq<Payment>, user: User, season: nat)
    requires AllSound(payments)
    ensures Purchased(payments, "settled", user, season) == 0
  {
    if payments != [] {
      SettledIsNobody(payments[..|payments| - 1], user, season);
    }
  }

  lemma {:induction false} VerifiedIsUnderNought(payments: seq<Payment>, user: User, season: nat)
    requires AllSound(payments)
    ensures Purchased(payments, "verified", user, season) == if season == 0 then PaidBy(payments, user) else 0
  {
    if payments != [] {
      VerifiedIsUnderNought(payments[..|payments| - 1], user, season);
    }
  }

  /** The board's query finds no purchase, whatever was bought: settlements are written as
      verified and it asks for settled ones. */
  lemma PurchasedIsNought(es: seq<Event>, user: User, season: nat)
    requires IsRun(NEW, es)
    ensures Purchased(Run(NEW, es).payments, "settled", user, season) == 0
  {
    RunKeepsRows(es);
    RowsAreSound(Run(NEW, es).payments);
    SettledIsNobody(Run(NEW, es).payments, user, season);
  }

  /** Nor would asking for verified ones: a purchase carries no season, so all of them stand
      under a key that no season has, and none under any that one does. */
  lemma PurchasesHaveNoSeason(es: seq<Event>, user: User, season: nat)
    requires IsRun(NEW, es)
    ensures Purchased(Run(NEW, es).payments, "verified", user, season)
         == if season == 0 then PaidBy(Run(NEW, es).payments, user) else 0
  {
    RunKeepsRows(es);
    RowsAreSound(Run(NEW, es).payments);
    VerifiedIsUnderNought(Run(NEW, es).payments, user, season);
  }

  lemma CreditIsPositive(amount: nat)
    requires TierAt(amount).Some?
    ensures CreditOf(PracticeSol, amount) >= LAMPORTS_PER_SOL && amount > 0
  {
    FoundIsListed(BY_PRICE, amount);
    OnTheTable(TierAt(amount).value);
  }

  lemma {:induction false} CreditedIffPaid(payments: seq<Payment>, user: User)
    requires AllSound(payments)
    ensures CreditedTo(payments, user) > 0 <==> PaidBy(payments, user) > 0
  {
    if payments != [] {
      var p := payments[|payments| - 1];
      CreditedIffPaid(payments[..|payments| - 1], user);
      if p.purpose == PracticeSol {
        CreditIsPositive(p.amount);
      }
      hide TierAt;
    }
  }

  /** A trader has been credited exactly if they paid. */
  lemma BoughtIffCredited(es: seq<Event>, user: User)
    requires IsRun(NEW, es)
    ensures CreditedTo(Run(NEW, es).payments, user) > 0 <==> PaidBy(Run(NEW, es).payments, user) > 0
  {
    RunKeepsRows(es);
    RowsAreSound(Run(NEW, es).payments);
    CreditedIffPaid(Run(NEW, es).payments, user);
  }

  /** Everything a trader was credited, in SOL. */
  function SolTo(payments: seq<Payment>, user: User): nat {
    if payments == [] then 0
    else
      var p := payments[|payments| - 1];
      SolTo(payments[..|payments| - 1], user) +
      if p.user == user && p.purpose == PracticeSol && TierAt(p.amount).Some? then TierAt(p.amount).value.sol else 0
  }

  lemma {:induction false} CreditedInSol(payments: seq<Payment>, user: User)
    ensures CreditedTo(payments, user) == SolTo(payments, user) * LAMPORTS_PER_SOL
  {
    if payments != [] {
      CreditedInSol(payments[..|payments| - 1], user);
      hide TierAt;
    }
  }

  // ----- One tier bought -----

  /** From nothing: a trader buys one tier, pays, and makes or loses `delta` by trading. */
  function OnePurchase(user: User, tier: Tier, signature: Signature, delta: int): seq<Event> {
    [] + [Bought(user, tier)] + [Confirmed(0, signature)] + [Transacted(0)] + [Traded(user, delta)]
  }

  /** A run, and where it has got to. */
  ghost predicate Reaches(es: seq<Event>, s: State) {
    IsRun(NEW, es) && Run(NEW, es) == s
  }

  lemma ReachesOn(es: seq<Event>, s: State, e: Event, t: State)
    requires Reaches(es, s) && Enabled(s, e) && Step(s, e) == t
    ensures Reaches(es + [e], t)
  {
    hide Enabled, Step;
    assert (es + [e])[..|es|] == es;
  }

  function Asking(user: User, tier: Tier): State
    requires OnTable(tier)
  {
    State([Intent(user, None, PracticeSol, tier.price)], [], map[user := FREE_PLAY_START], [])
  }

  function Confirming(user: User, tier: Tier, signature: Signature): State
    requires OnTable(tier)
  {
    Asking(user, tier).(calls := [Call(Asking(user, tier).intents[0], signature, None)])
  }

  function Paid(user: User, tier: Tier, signature: Signature, balance: nat): State
    requires OnTable(tier)
  {
    State([Intent(user, None, PracticeSol, tier.price)],
          [Payment(user, None, PracticeSol, tier.price, signature, "verified")], map[user := balance],
          [Call(Asking(user, tier).intents[0], signature, Some(Settled(true)))])
  }

  lemma PurchaseSteps(user: User, tier: Tier, signature: Signature)
    requires OnTable(tier)
    ensures Step(NEW, Bought(user, tier)) == Asking(user, tier)
    ensures Step(Asking(user, tier), Confirmed(0, signature)) == Confirming(user, tier, signature)
    ensures Step(Confirming(user, tier, signature), Transacted(0)) == Paid(user, tier, signature, FREE_PLAY_START + CreditFor(tier))
  {
    SoldIsFound(tier);
    hide TierAt;
  }

  lemma OnePurchaseReaches(user: User, tier: Tier, signature: Signature, delta: int)
    requires OnTable(tier) && FREE_PLAY_START + CreditFor(tier) + delta >= 0
    ensures Reaches(OnePurchase(user, tier, signature, delta),
                    Paid(user, tier, signature, FREE_PLAY_START + CreditFor(tier) + delta))
  {
    var paid := Paid(user, tier, signature, FREE_PLAY_START + CreditFor(tier));
    PurchaseSteps(user, tier, signature);
    assert Reaches([], NEW);
    assert Step(paid, Traded(user, delta)) == Paid(user, tier, signature, FREE_PLAY_START + CreditFor(tier) + delta);
    hide Reaches, Step;
    ReachesOn([], NEW, Bought(user, tier), Asking(user, tier));
    ReachesOn([] + [Bought(user, tier)], Asking(user, tier), Confirmed(0, signature), Confirming(user, tier, signature));
    ReachesOn([] + [Bought(user, tier)] + [Confirmed(0, signature)], Confirming(user, tier, signature), Transacted(0), paid);
    ReachesOn([] + [Bought(user, tier)] + [Confirmed(0, signature)] + [Transacted(0)], paid, Traded(user, delta),
              Paid(user, tier, signature, FREE_PLAY_START + CreditFor(tier) + delta));
  }

  lemma PaidIsCredited(user: User, tier: Tier, signature: Signature, balance: nat)
    requires OnTable(tier)
    ensures CreditedTo(Paid(user, tier, signature, balance).payments, user) == CreditFor(tier)
    ensures PaidBy(Paid(user, tier, signature, balance).payments, user) == tier.price
  {
    SoldIsFound(tier);
    var p := Payment(user, None, PracticeSol, tier.price, signature, "verified");
    assert [p][..0] == [];
    hide TierAt;
  }
}
