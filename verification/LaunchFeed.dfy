/** The three-lane launch feed: a reducer over launch and curve events. */
module LaunchFeed {
  import opened Wrappers

  type Mint = string

  const MAX_ROWS := 100
  const BONDING_BPS := 5_000

  datatype Token = Token(mint: Mint, launchedAt: int, progressBps: Option<int>, marketCap: Option<nat>, complete: bool)

  datatype Update = Update(mint: Mint, progressBps: int, marketCap: Option<nat>, complete: bool)

  datatype Lane = Launched | Bonding | Bonded

  datatype Lanes = Lanes(launched: seq<Token>, bonding: seq<Token>, bonded: seq<Token>)
  {
    function In(lane: Lane): seq<Token> {
      match lane
      case Launched => launched
      case Bonding => bonding
      case Bonded => bonded
    }

    function All(): seq<Token> {
      launched + bonding + bonded
    }
  }

  // ----- The order within a lane -----

  /** The market-cap comparator: negative when `a` goes first. */
  function ByMarketCap(a: Token, b: Token): int {
    if a.marketCap.None? then (if b.marketCap.None? then 0 else 1)
    else if b.marketCap.None? then -1
    else if b.marketCap.value > a.marketCap.value then 1
    else if b.marketCap.value < a.marketCap.value then -1
    else 0
  }

  function ByLaunch(a: Token, b: Token): int {
    b.launchedAt - a.launchedAt
  }

  function Compare(lane: Lane, a: Token, b: Token): int {
    if lane == Launched then ByLaunch(a, b) else ByMarketCap(a, b)
  }

  /** What a lane ranks by, largest first; an unpriced token is below every priced one. */
  function Rank(lane: Lane, t: Token): int {
    if lane == Launched then t.launchedAt
    else if t.marketCap.None? then -1 else t.marketCap.value
  }

  /** Both comparators are the comparison of ranks, so sorting with them is well defined. */
  lemma ComparesByRank(lane: Lane, a: Token, b: Token)
    ensures Compare(lane, a, b) < 0 <==> Rank(lane, a) > Rank(lane, b)
    ensures Compare(lane, a, b) == 0 <==> Rank(lane, a) == Rank(lane, b)
  {
  }

  /** Behind every token that does not go after `t`. */
  function InsertPoint(lane: Lane, s: seq<Token>, t: Token): (p: nat)
    ensures p <= |s|
  {
    if s == [] || Compare(lane, t, s[|s| - 1]) >= 0 then |s| else InsertPoint(lane, s[..|s| - 1], t)
  }

  function Insert(lane: Lane, s: seq<Token>, t: Token): seq<Token> {
    var p := InsertPoint(lane, s, t);
    s[..p] + [t] + s[p..]
  }

  /** The stable sort of the standard library, as an insertion sort. */
  function Sort(lane: Lane, ts: seq<Token>): seq<Token> {
    if ts == [] then [] else Insert(lane, Sort(lane, ts[..|ts| - 1]), ts[|ts| - 1])
  }

  ghost predicate Ranked(lane: Lane, s: seq<Token>) {
    forall i, j :: 0 <= i < j < |s| ==> Rank(lane, s[i]) >= Rank(lane, s[j])
  }

  /** The tokens of one rank, in order. */
  function WithRank(lane: Lane, s: seq<Token>, r: int): seq<Token> {
    if s == [] then []
    else (if Rank(lane, s[0]) == r then [s[0]] else []) + WithRank(lane, s[1..], r)
  }

  lemma WithRankCons(lane: Lane, s: seq<Token>, r: int)
    requires s != []
    ensures Rank(lane, s[0]) == r ==> WithRank(lane, s, r) == [s[0]] + WithRank(lane, s[1..], r)
    ensures Rank(lane, s[0]) != r ==> WithRank(lane, s, r) == WithRank(lane, s[1..], r)
  {
  }

  lemma Regroup(a: seq<Token>, b: seq<Token>, c: seq<Token>)
    ensures a + (b + c) == (a + b) + c
  {
  }

  lemma WithRankConsConcat(lane: Lane, a: seq<Token>, b: seq<Token>, r: int)
    requires a != [] && WithRank(lane, a[1..] + b, r) == WithRank(lane, a[1..], r) + WithRank(lane, b, r)
    ensures WithRank(lane, a + b, r) == WithRank(lane, a, r) + WithRank(lane, b, r)
  {
    hide WithRank, Rank;
    assert (a + b)[0] == a[0] && (a + b)[1..] == a[1..] + b;
    WithRankCons(lane, a, r);
    WithRankCons(lane, a + b, r);
    Regroup([a[0]], WithRank(lane, a[1..], r), WithRank(lane, b, r));
  }

  lemma {:induction false} WithRankConcat(lane: Lane, a: seq<Token>, b: seq<Token>, r: int)
    ensures WithRank(lane, a + b, r) == WithRank(lane, a, r) + WithRank(lane, b, r)
  {
    if a == [] {
      assert a + b == b;
    } else {
      WithRankConcat(lane, a[1..], b, r);
      WithRankConsConcat(lane, a, b, r);
    }
  }

  lemma {:induction false} WithRankNone(lane: Lane, s: seq<Token>, r: int)
    requires forall i :: 0 <= i < |s| ==> Rank(lane, s[i]) < r
    ensures WithRank(lane, s, r) == []
  {
    if s != [] {
      WithRankNone(lane, s[1..], r);
    }
  }

  lemma {:induction false} InsertPointSplits(lane: Lane, s: seq<Token>, t: Token)
    requires Ranked(lane, s)
    ensures var p := InsertPoint(lane, s, t);
      && (forall i :: 0 <= i < p ==> Rank(lane, s[i]) >= Rank(lane, t))
      && (forall i :: p <= i < |s| ==> Rank(lane, s[i]) < Rank(lane, t))
  {
    if s != [] {
      ComparesByRank(lane, t, s[|s| - 1]);
      if Compare(lane, t, s[|s| - 1]) < 0 {
        InsertPointSplits(lane, s[..|s| - 1], t);
      }
    }
  }

  lemma InsertSorts(lane: Lane, s: seq<Token>, t: Token)
    requires Ranked(lane, s)
    ensures Ranked(lane, Insert(lane, s, t)) && multiset(Insert(lane, s, t)) == multiset(s + [t])
  {
    var p := InsertPoint(lane, s, t);
    InsertPointSplits(lane, s, t);
    hide InsertPoint, Rank;
    assert s == s[..p] + s[p..];
    RankedBetween(lane, s, t, p);
  }

  lemma RankedBetween(lane: Lane, s: seq<Token>, t: Token, p: nat)
    requires Ranked(lane, s) && p <= |s|
    requires forall i :: 0 <= i < p ==> Rank(lane, s[i]) >= Rank(lane, t)
    requires forall i :: p <= i < |s| ==> Rank(lane, s[i]) < Rank(lane, t)
    ensures Ranked(lane, s[..p] + [t] + s[p..])
  {
    hide Rank;
  }

  lemma InsertIsStable(lane: Lane, s: seq<Token>, t: Token, r: int)
    requires Ranked(lane, s)
    ensures WithRank(lane, Insert(lane, s, t), r) == WithRank(lane, s + [t], r)
  {
    InsertPointSplits(lane, s, t);
    var p := InsertPoint(lane, s, t);
    assert s == s[..p] + s[p..];
    if Rank(lane, t) == r {
      WithRankNone(lane, s[p..], r);
    }
    MovesPast(lane, s[..p], s[p..], t, r);
  }

  /** Moving a token past others leaves the tokens of a rank in order, unless both have it. */
  lemma MovesPast(lane: Lane, a: seq<Token>, b: seq<Token>, t: Token, r: int)
    requires Rank(lane, t) == r ==> WithRank(lane, b, r) == []
    ensures WithRank(lane, a + [t] + b, r) == WithRank(lane, a + b + [t], r)
  {
    var one := [t];
    assert Rank(lane, t) != r ==> WithRank(lane, one, r) == [];
    WithRankConcat(lane, a + one, b, r);
    WithRankConcat(lane, a, one, r);
    WithRankConcat(lane, a + b, one, r);
    WithRankConcat(lane, a, b, r);
  }

  /** Sorting ranks the lane and keeps exactly its tokens, equals in their old order. */
  lemma {:induction false} SortSorts(lane: Lane, ts: seq<Token>, r: int)
    ensures Ranked(lane, Sort(lane, ts)) && multiset(Sort(lane, ts)) == multiset(ts)
    ensures WithRank(lane, Sort(lane, ts), r) == WithRank(lane, ts, r)
  {
    if ts != [] {
      var front, last := ts[..|ts| - 1], ts[|ts| - 1];
      assert ts == front + [last];
      SortSorts(lane, front, r);
      InsertSorts(lane, Sort(lane, front), last);
      InsertIsStable(lane, Sort(lane, front), last, r);
      WithRankConcat(lane, Sort(lane, front), [last], r);
      WithRankConcat(lane, front, [last], r);
    }
  }

  lemma InsertAtTheEnd(lane: Lane, s: seq<Token>, t: Token)
    requires s != [] ==> Rank(lane, s[|s| - 1]) >= Rank(lane, t)
    ensures Insert(lane, s, t) == s + [t]
  {
    hide Rank, Compare;
    if s != [] {
      ComparesByRank(lane, t, s[|s| - 1]);
    }
  }

  lemma {:induction false} SortOfRanked(lane: Lane, ts: seq<Token>)
    requires Ranked(lane, ts)
    ensures Sort(lane, ts) == ts
  {
    hide Rank, Insert;
    if ts != [] {
      var front, last := ts[..|ts| - 1], ts[|ts| - 1];
      SortOfRanked(lane, front);
      assert front != [] ==> Rank(lane, ts[|ts| - 2]) >= Rank(lane, last);
      InsertAtTheEnd(lane, front, last);
    }
  }

  function Top(s: seq<Token>): seq<Token> {
    if |s| <= MAX_ROWS then s else s[..MAX_ROWS]
  }

  // ----- Launches -----

  function MintsOf(ts: seq<Token>): seq<Mint> {
    seq(|ts|, i requires 0 <= i < |ts| => ts[i].mint)
  }

  /** The launches not on screen and not repeated within the batch, in order. */
  function Additions(incoming: seq<Token>, shown: seq<Token>): seq<Token> {
    if incoming == [] then []
    else
      var before, t := Additions(incoming[..|incoming| - 1], shown), incoming[|incoming| - 1];
      if t.mint in MintsOf(shown) || t.mint in MintsOf(before) then before else before + [t]
  }

  function LaunchesOf(l: Lanes, incoming: seq<Token>): Lanes {
    var added := Additions(incoming, l.All());
    if added == [] then l else l.(launched := Top(added + l.launched))
  }

  // ----- Curves -----

  /** The batch as a map: the last update of a mint wins. */
  function Latest(updates: seq<Update>, mint: Mint): Option<Update> {
    if updates == [] then None
    else if updates[|updates| - 1].mint == mint then Some(updates[|updates| - 1])
    else Latest(updates[..|updates| - 1], mint)
  }

  function Merge(t: Token, u: Option<Update>): Token {
    match u
    case None => t
    case Some(u) =>
      t.(progressBps := Some(u.progressBps),
         marketCap := if u.marketCap.None? then t.marketCap else u.marketCap,
         complete := u.complete)
  }

  function Applied(ts: seq<Token>, updates: seq<Update>): seq<Token> {
    seq(|ts|, i requires 0 <= i < |ts| => Merge(ts[i], Latest(updates, ts[i].mint)))
  }

  /** Setting a key of a map in insertion order: a known mint keeps its place. */
  function Put(known: seq<Token>, t: Token): seq<Token> {
    if known == [] then [t]
    else if known[0].mint == t.mint then [t] + known[1..]
    else [known[0]] + Put(known[1..], t)
  }

  function Known(ts: seq<Token>): seq<Token> {
    if ts == [] then [] else Put(Known(ts[..|ts| - 1]), ts[|ts| - 1])
  }

  function Belongs(t: Token): Lane {
    if t.complete then Bonded else if t.progressBps.GetOr(0) >= BONDING_BPS then Bonding else Launched
  }

  /** The tokens that belong in a lane, in order. */
  function Belonging(ts: seq<Token>, lane: Lane): seq<Token> {
    if ts == [] then []
    else Belonging(ts[..|ts| - 1], lane) + if Belongs(ts[|ts| - 1]) == lane then [ts[|ts| - 1]] else []
  }

  function Rebuilt(known: seq<Token>, lane: Lane): seq<Token> {
    Top(Sort(lane, Belonging(known, lane)))
  }

  function CurvesOf(l: Lanes, updates: seq<Update>): Lanes {
    if updates == [] then l
    else
      var known := Known(Applied(l.All(), updates));
      Lanes(Rebuilt(known, Launched), Rebuilt(known, Bonding), Rebuilt(known, Bonded))
  }

  function LaneOf(l: Lanes, mint: Mint): Option<Lane> {
    if mint in MintsOf(l.launched) then Some(Launched)
    else if mint in MintsOf(l.bonding) then Some(Bonding)
    else if mint in MintsOf(l.bonded) then Some(Bonded)
    else None
  }

  /** The mints a curve event highlights: those that change lane. */
  function Promoted(l: Lanes, known: seq<Token>): set<Mint> {
    set i | 0 <= i < |known| && LaneOf(l, known[i].mint).Some? && LaneOf(l, known[i].mint).value != Belongs(known[i]) :: known[i].mint
  }

  // ----- The handlers -----

  /** The refs the two stream handlers share. `lanes` is None until the first load. */
  class Feed {
    var lanes: Option<Lanes>
    var arrived: set<Mint>
    var searching: bool
    var paused: bool

    constructor (load: Option<Lanes>)
      ensures lanes == load && arrived == {} && !searching && !paused
    {
      lanes, arrived, searching, paused := load, {}, false, false;
    }

    method OnLaunches(incoming: seq<Token>)
      modifies this`lanes, this`arrived
      ensures old(lanes).None? || searching || paused ==> lanes == old(lanes) && arrived == old(arrived)
      ensures old(lanes).Some? && !searching && !paused ==>
        && lanes == Some(LaunchesOf(old(lanes).value, incoming))
        && arrived == old(arrived) + (set m | m in MintsOf(Additions(incoming, old(lanes).value.All())))
    {
      if searching || paused { return; }
      if lanes.None? { return; }
      var current := lanes.value;
      var seen := set m | m in MintsOf(current.All());
      var additions: seq<Token> := [];
      for i := 0 to |incoming|
        invariant additions == Additions(incoming[..i], current.All())
        invariant forall m :: m in seen <==> m in MintsOf(current.All()) || m in MintsOf(additions)
      {
        var token := incoming[i];
        assert incoming[..i + 1][..i] == incoming[..i];
        if token.mint !in seen {
          assert MintsOf(additions + [token]) == MintsOf(additions) + [token.mint];
          seen := seen + {token.mint};
          additions := additions + [token];
        }
      }
      assert incoming[..|incoming|] == incoming;
      if |additions| == 0 { return; }
      lanes := Some(current.(launched := Top(additions + current.launched)));
      arrived := arrived + (set m | m in MintsOf(additions));
    }

    method OnCurves(updates: seq<Update>)
      modifies this`lanes, this`arrived
      ensures old(lanes).None? || searching || paused || updates == [] ==> lanes == old(lanes) && arrived == old(arrived)
      ensures old(lanes).Some? && !searching && !paused && updates != [] ==>
        && lanes == Some(CurvesOf(old(lanes).value, updates))
        && arrived == old(arrived) + Promoted(old(lanes).value, Known(Applied(old(lanes).value.All(), updates)))
    {
      if searching || paused { return; }
      if |updates| == 0 { return; }
      if lanes.None? { return; }
      var current := lanes.value;
      var applied := Applied(current.launched, updates) + Applied(current.bonding, updates) + Applied(current.bonded, updates);
      assert applied == Applied(current.All(), updates);
      var known := Gathered(applied);
      var next, promoted := Sorted(current, known);
      lanes := Some(next);
      arrived := arrived + promoted;
    }

    /** Each mint once, as it was last put. */
    method Gathered(applied: seq<Token>) returns (known: seq<Token>)
      ensures known == Known(applied)
    {
      known := [];
      for i := 0 to |applied|
        invariant known == Known(applied[..i])
      {
        assert applied[..i + 1][..i] == applied[..i];
        known := Put(known, applied[i]);
      }
      assert applied[..|applied|] == applied;
    }

    /** Every known token into the lane it belongs in, then each lane into its own order. */
    method Sorted(current: Lanes, known: seq<Token>) returns (next: Lanes, promoted: set<Mint>)
      ensures next == Lanes(Rebuilt(known, Launched), Rebuilt(known, Bonding), Rebuilt(known, Bonded))
      ensures promoted == Promoted(current, known)
    {
      var launched: seq<Token>, bonding: seq<Token>, bonded: seq<Token> := [], [], [];
      promoted := {};
      for i := 0 to |known|
        invariant launched == Belonging(known[..i], Launched)
        invariant bonding == Belonging(known[..i], Bonding)
        invariant bonded == Belonging(known[..i], Bonded)
        invariant promoted == Promoted(current, known[..i])
      {
        var token := known[i];
        assert known[..i + 1][..i] == known[..i] && known[..i] + [token] == known[..i + 1];
        PromotedSnoc(current, known[..i], token);
        var belongs := Belongs(token);
        var wasIn := LaneOf(current, token.mint);
        if wasIn.Some? && wasIn.value != belongs { promoted := promoted + {token.mint}; }
        match belongs {
          case Launched => launched := launched + [token];
          case Bonding => bonding := bonding + [token];
          case Bonded => bonded := bonded + [token];
        }
      }
      assert known[..|known|] == known;
      launched, bonding, bonded := Sort(Launched, launched), Sort(Bonding, bonding), Sort(Bonded, bonded);
      next := Lanes(Top(launched), Top(bonding), Top(bonded));
    }
  }

  lemma PromotedSnoc(l: Lanes, known: seq<Token>, t: Token)
    ensures Promoted(l, known + [t])
         == Promoted(l, known) + if LaneOf(l, t.mint).Some? && LaneOf(l, t.mint).value != Belongs(t) then {t.mint} else {}
  {
    var longer := known + [t];
    forall m
      ensures m in Promoted(l, longer)
         <==> m in Promoted(l, known) || (m == t.mint && LaneOf(l, t.mint).Some? && LaneOf(l, t.mint).value != Belongs(t))
    {
      if m in Promoted(l, known) {
        var i :| 0 <= i < |known| && LaneOf(l, known[i].mint).Some? && LaneOf(l, known[i].mint).value != Belongs(known[i]) && known[i].mint == m;
        assert longer[i] == known[i];
      }
      if m == t.mint {
        assert longer[|known|] == t;
      }
    }
  }

  // ----- No mint in two places -----

  ghost predicate DistinctMints(ts: seq<Token>) {
    forall i, j :: 0 <= i < j < |ts| ==> ts[i].mint != ts[j].mint
  }

  /** The same, said of the tokens without their order. */
  ghost predicate OneEach(ms: multiset<Token>) {
    && (forall t :: t in ms ==> ms[t] == 1)
    && (forall a, b :: a in ms && b in ms && a.mint == b.mint ==> a == b)
  }

  ghost predicate Inv(l: Lanes) {
    DistinctMints(l.All())
  }

  /** No lane is longer than `n`. */
  predicate Fits(l: Lanes, n: nat) {
    |l.launched| <= n && |l.bonding| <= n && |l.bonded| <= n
  }

  lemma {:induction false} DistinctIsOneEach(ts: seq<Token>)
    requires DistinctMints(ts)
    ensures OneEach(multiset(ts))
  {
    if ts != [] {
      var front, last := ts[..|ts| - 1], ts[|ts| - 1];
      DistinctIsOneEach(front);
      assert ts == front + [last];
      assert last !in front;
    }
  }

  lemma OneEachIsDistinct(ts: seq<Token>)
    requires OneEach(multiset(ts))
    ensures DistinctMints(ts)
  {
    forall i, j | 0 <= i < j < |ts|
      ensures ts[i].mint != ts[j].mint
    {
      assert ts[i] in multiset(ts) && ts[j] in multiset(ts);
      assert ts == ts[..j] + [ts[j]] + ts[j + 1..];
      assert ts[i] in ts[..j];
      assert multiset(ts) == multiset(ts[..j]) + multiset{ts[j]} + multiset(ts[j + 1..]);
    }
  }

  lemma FewerStayDistinct(some: seq<Token>, all: seq<Token>)
    requires DistinctMints(all) && multiset(some) <= multiset(all)
    ensures DistinctMints(some)
  {
    DistinctIsOneEach(all);
    assert forall t :: t in multiset(some) ==> t in multiset(all) && multiset(some)[t] <= multiset(all)[t];
    OneEachIsDistinct(some);
  }

  lemma TopIsFewer(s: seq<Token>)
    ensures multiset(Top(s)) <= multiset(s) && |Top(s)| <= MAX_ROWS
  {
    assert s == Top(s) + s[|Top(s)|..];
  }

  // ----- Launches keep it -----

  lemma {:induction false} AdditionsAreNew(incoming: seq<Token>, shown: seq<Token>)
    ensures var added := Additions(incoming, shown);
      && DistinctMints(added)
      && (forall i, j :: 0 <= i < |added| && 0 <= j < |shown| ==> added[i].mint != shown[j].mint)
      && (forall i :: 0 <= i < |added| ==> added[i] in incoming)
    ensures forall i :: 0 <= i < |incoming| ==>
      incoming[i].mint in MintsOf(shown) || incoming[i].mint in MintsOf(Additions(incoming, shown))
  {
    if incoming != [] {
      var front, t := incoming[..|incoming| - 1], incoming[|incoming| - 1];
      AdditionsAreNew(front, shown);
      var before, after := Additions(front, shown), Additions(incoming, shown);
      assert incoming == front + [t];
      forall j | 0 <= j < |shown|
        ensures shown[j].mint in MintsOf(shown)
      {
        assert MintsOf(shown)[j] == shown[j].mint;
      }
      forall j | 0 <= j < |before|
        ensures before[j].mint in MintsOf(before)
      {
        assert MintsOf(before)[j] == before[j].mint;
      }
      if after != before {
        assert MintsOf(after) == MintsOf(before) + [t.mint];
      }
    }
  }

  /** Of the launches of a mint in one batch the first is taken, and in the batch's order. */
  lemma {:induction false} AdditionsAreTheFirst(incoming: seq<Token>, shown: seq<Token>, i: nat) returns (k: nat)
    requires i < |Additions(incoming, shown)|
    ensures k < |incoming| && incoming[k] == Additions(incoming, shown)[i]
    ensures forall j :: 0 <= j < k ==> incoming[j].mint != incoming[k].mint
    ensures Additions(incoming[..|incoming| - 1], shown) <= Additions(incoming, shown)
  {
    var front := incoming[..|incoming| - 1];
    if i < |Additions(front, shown)| {
      k := AdditionsAreTheFirst(front, shown, i);
    } else {
      k := |front|;
      AdditionsAreNew(front, shown);
      assert forall j :: 0 <= j < k ==> incoming[j] == front[j];
      hide MintsOf;
    }
  }

  lemma PartsOf(l: Lanes)
    ensures multiset(l.All()) == multiset(l.launched) + multiset(l.bonding) + multiset(l.bonded)
  {
  }

  lemma DistinctTogether(a: seq<Token>, b: seq<Token>)
    requires DistinctMints(a) && DistinctMints(b)
    requires forall i, j :: 0 <= i < |a| && 0 <= j < |b| ==> a[i].mint != b[j].mint
    ensures DistinctMints(a + b)
  {
  }

  lemma LandingKeepsInv(l: Lanes, added: seq<Token>)
    requires Inv(l) && DistinctMints(added + l.All())
    ensures var next := l.(launched := Top(added + l.launched));
      Inv(next) && multiset(next.All()) <= multiset(added) + multiset(l.All())
  {
    var next := l.(launched := Top(added + l.launched));
    TopIsFewer(added + l.launched);
    PartsOf(l);
    PartsOf(next);
    FewerStayDistinct(next.All(), added + l.All());
  }

  /** A launch batch adds exactly the mints not on screen, once each, ahead of the rest of
      the new lane, and touches no other lane. */
  lemma LaunchesKeepInv(l: Lanes, incoming: seq<Token>)
    requires Inv(l)
    ensures Inv(LaunchesOf(l, incoming))
    ensures multiset(LaunchesOf(l, incoming).All()) <= multiset(Additions(incoming, l.All())) + multiset(l.All())
    ensures LaunchesOf(l, incoming).bonding == l.bonding && LaunchesOf(l, incoming).bonded == l.bonded
  {
    var added := Additions(incoming, l.All());
    AdditionsAreNew(incoming, l.All());
    DistinctTogether(added, l.All());
    LandingKeepsInv(l, added);
  }

  /** They stand ahead of the new lane's rows, and what is cut is cut off its end. */
  lemma LaunchesLandAhead(l: Lanes, incoming: seq<Token>, i: nat)
    requires i < |LaunchesOf(l, incoming).launched|
    ensures var added, rows := Additions(incoming, l.All()), LaunchesOf(l, incoming).launched;
      && (|rows| == |added| + |l.launched| || (added != [] && |rows| == MAX_ROWS < |added| + |l.launched|))
      && rows[i] == if i < |added| then added[i] else l.launched[i - |added|]
  {
    hide Additions;
  }

  /** Only the new lane grows, and it is cut. */
  lemma LaunchesFit(l: Lanes, incoming: seq<Token>, n: nat)
    requires Fits(l, n)
    ensures Fits(LaunchesOf(l, incoming), if n < MAX_ROWS then MAX_ROWS else n)
  {
  }

  // ----- Curves keep it, and rebuild every lane -----

  lemma AppliedKeepsMints(ts: seq<Token>, updates: seq<Update>)
    ensures MintsOf(Applied(ts, updates)) == MintsOf(ts)
    ensures DistinctMints(ts) ==> DistinctMints(Applied(ts, updates))
  {
  }

  lemma {:induction false} PutNew(known: seq<Token>, t: Token)
    requires forall i :: 0 <= i < |known| ==> known[i].mint != t.mint
    ensures Put(known, t) == known + [t]
  {
    if known != [] {
      PutNew(known[1..], t);
    }
  }

  lemma {:induction false} KnownOfDistinct(ts: seq<Token>)
    requires DistinctMints(ts)
    ensures Known(ts) == ts
  {
    if ts != [] {
      KnownOfDistinct(ts[..|ts| - 1]);
      PutNew(ts[..|ts| - 1], ts[|ts| - 1]);
    }
  }

  lemma BelongingSnoc(ts: seq<Token>, t: Token, lane: Lane)
    ensures Belonging(ts + [t], lane) == Belonging(ts, lane) + if Belongs(t) == lane then [t] else []
  {
    assert (ts + [t])[..|ts|] == ts;
  }

  /** How often `x` is in a lane's share. */
  function CountIn(ts: seq<Token>, lane: Lane, x: Token): nat {
    multiset(Belonging(ts, lane))[x]
  }

  lemma CountSnoc(ts: seq<Token>, t: Token, lane: Lane, x: Token)
    ensures CountIn(ts + [t], lane, x) == CountIn(ts, lane, x) + if Belongs(t) == lane && t == x then 1 else 0
  {
    BelongingSnoc(ts, t, lane);
  }

  /** The lanes share the tokens out: each goes to exactly one. */
  lemma {:induction false} BelongingPartitions(ts: seq<Token>, x: Token)
    ensures CountIn(ts, Launched, x) + CountIn(ts, Bonding, x) + CountIn(ts, Bonded, x) == multiset(ts)[x]
  {
    if ts != [] {
      var front, t := ts[..|ts| - 1], ts[|ts| - 1];
      assert ts == front + [t];
      BelongingPartitions(front, x);
      CountSnoc(front, t, Launched, x);
      CountSnoc(front, t, Bonding, x);
      CountSnoc(front, t, Bonded, x);
    }
  }

  lemma {:induction false} BelongingIs(ts: seq<Token>, lane: Lane, t: Token)
    ensures t in Belonging(ts, lane) <==> t in ts && Belongs(t) == lane
  {
    if ts != [] {
      BelongingIs(ts[..|ts| - 1], lane, t);
      assert ts == ts[..|ts| - 1] + [ts[|ts| - 1]];
    }
  }

  /** Tokens that all belong in one lane all go there, and none elsewhere. */
  lemma {:induction false} BelongingAllOrNone(ts: seq<Token>, own: Lane, lane: Lane)
    requires forall i :: 0 <= i < |ts| ==> Belongs(ts[i]) == own
    ensures Belonging(ts, lane) == if lane == own then ts else []
  {
    if ts != [] {
      var front, t := ts[..|ts| - 1], ts[|ts| - 1];
      assert ts == front + [t];
      BelongingAllOrNone(front, own, lane);
      BelongingSnoc(front, t, lane);
    }
  }

  lemma {:induction false} BelongingConcat(a: seq<Token>, b: seq<Token>, lane: Lane)
    ensures Belonging(a + b, lane) == Belonging(a, lane) + Belonging(b, lane)
  {
    if b == [] {
      assert a + b == a;
    } else {
      var front, t := b[..|b| - 1], b[|b| - 1];
      BelongingConcat(a, front, lane);
      assert b == front + [t] && a + b == (a + front) + [t];
      BelongingConcatSnoc(a, front, t, lane);
    }
  }

  lemma BelongingConcatSnoc(a: seq<Token>, front: seq<Token>, t: Token, lane: Lane)
    requires Belonging(a + front, lane) == Belonging(a, lane) + Belonging(front, lane)
    ensures Belonging((a + front) + [t], lane) == Belonging(a, lane) + Belonging(front + [t], lane)
  {
    hide Belonging, Belongs;
    BelongingSnoc(front, t, lane);
    BelongingSnoc(a + front, t, lane);
    Regroup(Belonging(a, lane), Belonging(front, lane), [t]);
  }

  lemma RebuiltIsFewer(known: seq<Token>, lane: Lane)
    ensures multiset(Rebuilt(known, lane)) <= multiset(Belonging(known, lane)) && |Rebuilt(known, lane)| <= MAX_ROWS
  {
    SortSorts(lane, Belonging(known, lane), 0);
    TopIsFewer(Sort(lane, Belonging(known, lane)));
  }

  /** The lanes a processed curve event builds, and what is known to build them from. */
  lemma CurvesRebuild(l: Lanes, updates: seq<Update>)
    requires Inv(l) && updates != []
    ensures var known := Applied(l.All(), updates);
      && DistinctMints(known) && MintsOf(known) == MintsOf(l.All())
      && CurvesOf(l, updates) == Lanes(Rebuilt(known, Launched), Rebuilt(known, Bonding), Rebuilt(known, Bonded))
  {
    AppliedKeepsMints(l.All(), updates);
    KnownOfDistinct(Applied(l.All(), updates));
  }

  lemma RebuildKeepsInv(known: seq<Token>, next: Lanes)
    requires DistinctMints(known) && next == Lanes(Rebuilt(known, Launched), Rebuilt(known, Bonding), Rebuilt(known, Bonded))
    ensures Inv(next) && multiset(next.All()) <= multiset(known)
  {
    RebuiltIsFewer(known, Launched);
    RebuiltIsFewer(known, Bonding);
    RebuiltIsFewer(known, Bonded);
    PartsOf(next);
    forall x: Token
      ensures multiset(next.All())[x] <= multiset(known)[x]
    {
      BelongingPartitions(known, x);
    }
    FewerStayDistinct(next.All(), known);
  }

  lemma CurvesKeepInv(l: Lanes, updates: seq<Update>)
    requires Inv(l)
    ensures Inv(CurvesOf(l, updates))
    ensures updates != [] ==> multiset(CurvesOf(l, updates).All()) <= multiset(Applied(l.All(), updates))
  {
    if updates != [] {
      CurvesRebuild(l, updates);
      RebuildKeepsInv(Applied(l.All(), updates), CurvesOf(l, updates));
    }
  }

  /** A processed curve event cuts every lane, whatever was loaded. */
  lemma CurvesFit(l: Lanes, updates: seq<Update>)
    requires updates != []
    ensures Fits(CurvesOf(l, updates), 100)
  {
  }

  lemma SortHolds(lane: Lane, ts: seq<Token>, t: Token)
    ensures t in Sort(lane, ts) <==> t in ts
  {
    SortSorts(lane, ts, 0);
    assert t in ts <==> t in multiset(ts);
    assert t in Sort(lane, ts) <==> t in multiset(Sort(lane, ts));
  }

  /** What the top of a ranked list leaves out, a full top outranks. */
  lemma TopOutranks(lane: Lane, sorted: seq<Token>, t: Token)
    requires Ranked(lane, sorted)
    ensures Ranked(lane, Top(sorted))
    ensures t in Top(sorted) ==> t in sorted
    ensures t in sorted && t !in Top(sorted) ==>
      |Top(sorted)| == MAX_ROWS && forall i :: 0 <= i < MAX_ROWS ==> Rank(lane, Top(sorted)[i]) >= Rank(lane, t)
  {
    if t in sorted && t !in Top(sorted) {
      var k :| 0 <= k < |sorted| && sorted[k] == t;
      var top := Top(sorted);
      assert forall i :: 0 <= i < |top| ==> sorted[i] == top[i];
    }
  }

  /** After a processed curve event a lane holds exactly the first MAX_ROWS, in its own
      order, of the known tokens that belong there: it is ranked with ties in their old
      order, holds nothing else, and leaves out only tokens a full lane outranks. */
  lemma LaneIsTheTopOfItsOwn(l: Lanes, updates: seq<Update>, lane: Lane, t: Token)
    requires Inv(l) && updates != []
    ensures var rows, known := CurvesOf(l, updates).In(lane), Applied(l.All(), updates);
      && rows == Top(Sort(lane, Belonging(known, lane)))
      && Ranked(lane, rows)
      && (t in rows ==> t in known && Belongs(t) == lane)
      && (t in known && Belongs(t) == lane && t !in rows ==>
            |rows| == MAX_ROWS && forall i :: 0 <= i < |rows| ==> Rank(lane, rows[i]) >= Rank(lane, t))
  {
    CurvesRebuild(l, updates);
    var known := Applied(l.All(), updates);
    SortSorts(lane, Belonging(known, lane), 0);
    SortHolds(lane, Belonging(known, lane), t);
    TopOutranks(lane, Sort(lane, Belonging(known, lane)), t);
    BelongingIs(known, lane, t);
  }

  // ----- What a row shows, and where -----

  lemma {:induction false} LatestIs(updates: seq<Update>, k: nat)
    requires k < |updates| && forall j :: k < j < |updates| ==> updates[j].mint != updates[k].mint
    ensures Latest(updates, updates[k].mint) == Some(updates[k])
  {
    if k < |updates| - 1 {
      LatestIs(updates[..|updates| - 1], k);
    }
  }

  lemma {:induction false} LatestOfOthers(updates: seq<Update>, mint: Mint)
    requires forall k :: 0 <= k < |updates| ==> updates[k].mint != mint
    ensures Latest(updates, mint) == None
  {
    if updates != [] {
      LatestOfOthers(updates[..|updates| - 1], mint);
    }
  }

  /** After a processed curve event a row is one that was on screen, with what the last
      update of its mint in the batch says of it: its progress and completeness, and its cap
      where it has one. Rows of mints that are not in the batch are untouched. */
  lemma RowsCarryTheBatch(l: Lanes, updates: seq<Update>, lane: Lane, t: Token) returns (was: Token)
    requires Inv(l) && updates != [] && t in CurvesOf(l, updates).In(lane)
    ensures was in l.All() && t.mint == was.mint && t.launchedAt == was.launchedAt
    ensures (forall k :: 0 <= k < |updates| ==> updates[k].mint != t.mint) ==> t == was
    ensures forall k :: 0 <= k < |updates| && updates[k].mint == t.mint && (forall j :: k < j < |updates| ==> updates[j].mint != t.mint) ==>
      && t.progressBps == Some(updates[k].progressBps) && t.complete == updates[k].complete
      && (updates[k].marketCap.Some? ==> t.marketCap == updates[k].marketCap)
      && (updates[k].marketCap.None? ==> t.marketCap == was.marketCap)
  {
    LaneIsTheTopOfItsOwn(l, updates, lane, t);
    var known := Applied(l.All(), updates);
    var i :| 0 <= i < |known| && known[i] == t;
    was := l.All()[i];
    assert t == Merge(was, Latest(updates, t.mint));
    hide *;
    if forall k :: 0 <= k < |updates| ==> updates[k].mint != t.mint {
      LatestOfOthers(updates, t.mint);
    }
    forall k | 0 <= k < |updates| && updates[k].mint == t.mint && forall j :: k < j < |updates| ==> updates[j].mint != t.mint
      ensures Latest(updates, t.mint) == Some(updates[k])
    {
      LatestIs(updates, k);
    }
  }

  /** And it stands in the lane that says so: graduated where it is complete, and before
      that soon from half of the curve on and new below, or while nothing is known. */
  lemma RowsStandWhereTheyBelong(l: Lanes, updates: seq<Update>, t: Token)
    requires Inv(l) && updates != []
    ensures var next := CurvesOf(l, updates);
      && (t in next.bonded ==> t.complete)
      && (t in next.bonding ==> !t.complete && t.progressBps.Some? && t.progressBps.value >= 5_000)
      && (t in next.launched ==> !t.complete && (t.progressBps.Some? ==> t.progressBps.value < 5_000))
  {
    LaneIsTheTopOfItsOwn(l, updates, Bonded, t);
    LaneIsTheTopOfItsOwn(l, updates, Bonding, t);
    LaneIsTheTopOfItsOwn(l, updates, Launched, t);
    hide CurvesOf, Inv, Ranked;
  }

  /** A row leaves the screen only where a lane is full. */
  lemma RowsLeaveFullLanes(l: Lanes, updates: seq<Update>, was: Token) returns (lane: Lane)
    requires Inv(l) && updates != [] && was in l.All()
    ensures was.mint in MintsOf(CurvesOf(l, updates).In(lane)) || |CurvesOf(l, updates).In(lane)| == MAX_ROWS
  {
    var known := Applied(l.All(), updates);
    var i :| 0 <= i < |l.All()| && l.All()[i] == was;
    lane := Belongs(known[i]);
    assert known[i] in known && known[i].mint == was.mint;
    LaneIsTheTopOfItsOwn(l, updates, lane, known[i]);
    var rows := CurvesOf(l, updates).In(lane);
    hide CurvesOf, Inv, Belongs, Ranked;
    if known[i] in rows {
      var k :| 0 <= k < |rows| && rows[k] == known[i];
      assert MintsOf(rows)[k] == was.mint;
    }
  }

  /** A stretch of rows among all of them has exactly the mints that stand in it. */
  lemma StretchHolds(all: seq<Token>, from: nat, to: nat, i: nat)
    requires DistinctMints(all) && from <= to <= |all| && i < |all|
    ensures all[i].mint in MintsOf(all[from..to]) <==> from <= i < to
  {
    var rows, mints := all[from..to], MintsOf(all[from..to]);
    if from <= i < to {
      assert mints[i - from] == all[i].mint;
    } else {
      forall k | 0 <= k < |rows|
        ensures mints[k] != all[i].mint
      {
        assert mints[k] == all[from + k].mint && from + k != i;
      }
    }
  }

  lemma LanesAreStretches(l: Lanes)
    ensures var all, first, second := l.All(), |l.launched|, |l.launched| + |l.bonding|;
      first <= second <= |all| && all[0..first] == l.launched && all[first..second] == l.bonding && all[second..|all|] == l.bonded
  {
  }

  lemma LaneOfIs(l: Lanes, lane: Lane, mint: Mint)
    requires Inv(l) && mint in MintsOf(l.All())
    ensures LaneOf(l, mint).Some?
    ensures LaneOf(l, mint) == Some(lane) <==> mint in MintsOf(l.In(lane))
  {
    hide MintsOf, Lanes.All, DistinctMints;
    var all, first, second := l.All(), |l.launched|, |l.launched| + |l.bonding|;
    var i := MintAt(all, mint);
    LanesAreStretches(l);
    StretchHolds(all, 0, first, i);
    StretchHolds(all, first, second, i);
    StretchHolds(all, second, |all|, i);
  }

  lemma MintAt(ts: seq<Token>, mint: Mint) returns (i: nat)
    requires mint in MintsOf(ts)
    ensures i < |ts| && ts[i].mint == mint
  {
    i :| 0 <= i < |ts| && MintsOf(ts)[i] == mint;
  }

  /** What is highlighted on screen is what has changed lane. */
  lemma HighlightsWhatMoved(l: Lanes, updates: seq<Update>, lane: Lane, t: Token)
    requires Inv(l) && updates != [] && t in CurvesOf(l, updates).In(lane)
    ensures t.mint in Promoted(l, Known(Applied(l.All(), updates))) <==> t.mint !in MintsOf(l.In(lane))
  {
    var known := Applied(l.All(), updates);
    LaneIsTheTopOfItsOwn(l, updates, lane, t);
    CurvesRebuild(l, updates);
    KnownOfDistinct(known);
    var i :| 0 <= i < |known| && known[i] == t;
    assert MintsOf(l.All())[i] == t.mint;
    LaneOfIs(l, lane, t.mint);
    assert forall k :: 0 <= k < |known| && known[k].mint == t.mint ==> k == i;
    hide CurvesOf, Belongs, LaneOf, Inv, Ranked;
  }

  /** Within its lane the newest stands first; among soon and graduated the one worth most,
      and whatever has no cap behind all that have. */
  lemma RowsAreInOrder(l: Lanes, updates: seq<Update>, i: nat, j: nat)
    requires Inv(l) && updates != [] && i < j
    ensures var next := CurvesOf(l, updates);
      && (j < |next.launched| ==> next.launched[i].launchedAt >= next.launched[j].launchedAt)
      && (j < |next.bonding| && next.bonding[j].marketCap.Some? ==>
            next.bonding[i].marketCap.Some? && next.bonding[i].marketCap.value >= next.bonding[j].marketCap.value)
      && (j < |next.bonded| && next.bonded[j].marketCap.Some? ==>
            next.bonded[i].marketCap.Some? && next.bonded[i].marketCap.value >= next.bonded[j].marketCap.value)
  {
    hide CurvesOf, Inv, Belongs, Ranked;
    var next := CurvesOf(l, updates);
    CurvesSettle(l, updates);
    RanksFall(Launched, next.launched, i, j);
    RanksFall(Bonding, next.bonding, i, j);
    RanksFall(Bonded, next.bonded, i, j);
  }

  lemma RanksFall(lane: Lane, rows: seq<Token>, i: nat, j: nat)
    requires Ranked(lane, rows) && i < j
    ensures j < |rows| ==> Rank(lane, rows[i]) >= Rank(lane, rows[j])
  {
  }

  // ----- Market caps -----

  /** A token on screen before and after: its cap does not go from known to unknown. */
  predicate KeepsCap(before: Lanes, after: Lanes) {
    forall i, j :: 0 <= i < |before.All()| && 0 <= j < |after.All()|
                   && before.All()[i].mint == after.All()[j].mint && before.All()[i].marketCap.Some?
                   ==> after.All()[j].marketCap.Some?
  }

  /** If every token shown after is one with no equal mint shown before, or one whose cap
      is kept from its predecessor, caps are kept. */
  lemma CapsKeptWhere(before: Lanes, after: Lanes, pool: seq<Token>)
    requires multiset(after.All()) <= multiset(pool)
    requires forall i, k :: 0 <= i < |before.All()| && 0 <= k < |pool|
                            && before.All()[i].mint == pool[k].mint && before.All()[i].marketCap.Some?
                            ==> pool[k].marketCap.Some?
    ensures KeepsCap(before, after)
  {
    var shown := after.All();
    forall i, j | 0 <= i < |before.All()| && 0 <= j < |shown| && before.All()[i].mint == shown[j].mint && before.All()[i].marketCap.Some?
      ensures shown[j].marketCap.Some?
    {
      FromPool(shown, pool, j);
      var k :| 0 <= k < |pool| && pool[k] == shown[j];
      assert before.All()[i].mint == pool[k].mint;
    }
  }

  lemma FromPool(some: seq<Token>, pool: seq<Token>, j: nat)
    requires multiset(some) <= multiset(pool) && j < |some|
    ensures some[j] in pool
  {
    assert some[j] in multiset(some);
    assert some[j] in multiset(pool);
  }

  lemma OwnCapsKept(l: Lanes, added: seq<Token>)
    requires DistinctMints(l.All())
    requires forall i, j :: 0 <= i < |added| && 0 <= j < |l.All()| ==> added[i].mint != l.All()[j].mint
    ensures var shown, pool := l.All(), added + l.All();
      forall i, k :: 0 <= i < |shown| && 0 <= k < |pool| && shown[i].mint == pool[k].mint && shown[i].marketCap.Some?
                     ==> pool[k].marketCap.Some?
  {
  }

  lemma LaunchesKeepCaps(l: Lanes, incoming: seq<Token>)
    requires Inv(l)
    ensures KeepsCap(l, LaunchesOf(l, incoming))
  {
    var added := Additions(incoming, l.All());
    AdditionsAreNew(incoming, l.All());
    LaunchesKeepInv(l, incoming);
    OwnCapsKept(l, added);
    CapsKeptWhere(l, LaunchesOf(l, incoming), added + l.All());
  }

  lemma CurvesKeepCaps(l: Lanes, updates: seq<Update>)
    requires Inv(l)
    ensures KeepsCap(l, CurvesOf(l, updates))
  {
    if updates != [] {
      CurvesKeepInv(l, updates);
      AppliedKeepsCaps(l.All(), updates);
      CapsKeptWhere(l, CurvesOf(l, updates), Applied(l.All(), updates));
    }
  }

  lemma AppliedKeepsCaps(ts: seq<Token>, updates: seq<Update>)
    requires DistinctMints(ts)
    ensures var known := Applied(ts, updates);
      forall i, k :: 0 <= i < |ts| && 0 <= k < |known| && ts[i].mint == known[k].mint && ts[i].marketCap.Some?
                     ==> known[k].marketCap.Some?
  {
    var known := Applied(ts, updates);
    forall i, k | 0 <= i < |ts| && 0 <= k < |known| && ts[i].mint == known[k].mint && ts[i].marketCap.Some?
      ensures known[k].marketCap.Some?
    {
      assert known[k].mint == ts[k].mint;
      assert i == k;
    }
  }

  // ----- Runs -----

  datatype Event = LaunchEvent(incoming: seq<Token>) | CurveEvent(updates: seq<Update>)

  function Step(l: Lanes, e: Event): Lanes {
    match e
    case LaunchEvent(incoming) => LaunchesOf(l, incoming)
    case CurveEvent(updates) => CurvesOf(l, updates)
  }

  function Run(l: Lanes, es: seq<Event>): Lanes {
    if es == [] then l else Step(Run(l, es[..|es| - 1]), es[|es| - 1])
  }

  /** Over every event stream, from any load whose lanes share no mint: each mint in at
      most one place, no lane longer than it was loaded or than MAX_ROWS, and no step
      forgets the cap of a token it keeps. */
  lemma {:induction false} EveryStreamKeepsTheLanes(load: Lanes, es: seq<Event>, n: nat)
    requires Inv(load) && Fits(load, n) && n >= MAX_ROWS
    ensures Inv(Run(load, es)) && Fits(Run(load, es), n)
    ensures es != [] ==> KeepsCap(Run(load, es[..|es| - 1]), Run(load, es))
  {
    if es != [] {
      var front := es[..|es| - 1];
      EveryStreamKeepsTheLanes(load, front, n);
      match es[|es| - 1] {
        case LaunchEvent(incoming) =>
          LaunchesKeepInv(Run(load, front), incoming);
          LaunchesFit(Run(load, front), incoming, n);
          LaunchesKeepCaps(Run(load, front), incoming);
        case CurveEvent(updates) =>
          CurvesKeepInv(Run(load, front), updates);
          if updates != [] {
            CurvesFit(Run(load, front), updates);
          }
          CurvesKeepCaps(Run(load, front), updates);
      }
    }
  }

  predicate CapKnown(l: Lanes, mint: Mint) {
    exists i :: 0 <= i < |l.All()| && l.All()[i].mint == mint && l.All()[i].marketCap.Some?
  }

  /** So a token that stays on screen through a run never loses a cap it has. */
  lemma {:induction false} CapsAreNeverForgotten(load: Lanes, es: seq<Event>, mint: Mint)
    requires Inv(load) && CapKnown(load, mint)
    requires forall n :: 0 <= n <= |es| ==> mint in MintsOf(Run(load, es[..n]).All())
    ensures CapKnown(Run(load, es), mint)
  {
    if es != [] {
      var front := es[..|es| - 1];
      assert forall n :: 0 <= n <= |front| ==> front[..n] == es[..n];
      CapsAreNeverForgotten(load, front, mint);
      var n := |load.launched| + |load.bonding| + |load.bonded| + MAX_ROWS;
      EveryStreamKeepsTheLanes(load, front, n);
      EveryStreamKeepsTheLanes(load, es, n);
      var before, after := Run(load, front).All(), Run(load, es).All();
      assert es[..|es|] == es;
      var i :| 0 <= i < |before| && before[i].mint == mint && before[i].marketCap.Some?;
      var j :| 0 <= j < |after| && MintsOf(after)[j] == mint;
      assert after[j].marketCap.Some?;
    }
  }

  // ----- The same event twice -----

  /** Each lane holds only its own tokens, in its own order. */
  ghost predicate Settled(l: Lanes) {
    && (forall i :: 0 <= i < |l.launched| ==> Belongs(l.launched[i]) == Launched)
    && (forall i :: 0 <= i < |l.bonding| ==> Belongs(l.bonding[i]) == Bonding)
    && (forall i :: 0 <= i < |l.bonded| ==> Belongs(l.bonded[i]) == Bonded)
    && Ranked(Launched, l.launched) && Ranked(Bonding, l.bonding) && Ranked(Bonded, l.bonded)
  }

  lemma BelongingOfThree(a: seq<Token>, b: seq<Token>, c: seq<Token>, lane: Lane)
    ensures Belonging(a + b + c, lane) == Belonging(a, lane) + Belonging(b, lane) + Belonging(c, lane)
  {
    BelongingConcat(a + b, c, lane);
    BelongingConcat(a, b, lane);
  }

  lemma OnlyOneOfThree(a: seq<Token>, b: seq<Token>, c: seq<Token>, lane: Lane)
    ensures (if lane == Launched then a else []) + (if lane == Bonding then b else []) + (if lane == Bonded then c else [])
         == if lane == Launched then a else if lane == Bonding then b else c
  {
  }

  lemma SettledBelonging(l: Lanes, lane: Lane)
    requires Settled(l)
    ensures Belonging(l.All(), lane) == l.In(lane)
  {
    BelongingOfThree(l.launched, l.bonding, l.bonded, lane);
    BelongingAllOrNone(l.launched, Launched, lane);
    BelongingAllOrNone(l.bonding, Bonding, lane);
    BelongingAllOrNone(l.bonded, Bonded, lane);
    OnlyOneOfThree(l.launched, l.bonding, l.bonded, lane);
  }

  lemma RebuiltAgain(l: Lanes, lane: Lane)
    requires Settled(l) && |l.In(lane)| <= MAX_ROWS
    ensures Rebuilt(l.All(), lane) == l.In(lane)
  {
    SettledBelonging(l, lane);
    SortOfRanked(lane, l.In(lane));
  }

  lemma LaneHoldsItsOwn(l: Lanes, updates: seq<Update>, lane: Lane)
    requires Inv(l) && updates != []
    ensures var rows := CurvesOf(l, updates).In(lane);
      Ranked(lane, rows) && forall i :: 0 <= i < |rows| ==> Belongs(rows[i]) == lane
  {
    var rows := CurvesOf(l, updates).In(lane);
    forall i | 0 <= i < |rows|
      ensures Belongs(rows[i]) == lane
    {
      LaneIsTheTopOfItsOwn(l, updates, lane, rows[i]);
    }
    LaneIsTheTopOfItsOwn(l, updates, lane, Token("", 0, None, None, false));
  }

  /** A processed curve event settles the feed. */
  lemma CurvesSettle(l: Lanes, updates: seq<Update>)
    requires Inv(l) && updates != []
    ensures Settled(CurvesOf(l, updates))
  {
    LaneHoldsItsOwn(l, updates, Launched);
    LaneHoldsItsOwn(l, updates, Bonding);
    LaneHoldsItsOwn(l, updates, Bonded);
  }

  lemma AppliedAgain(ts: seq<Token>, updates: seq<Update>, some: seq<Token>)
    requires multiset(some) <= multiset(Applied(ts, updates))
    ensures Applied(some, updates) == some
  {
    var known := Applied(ts, updates);
    forall i | 0 <= i < |some|
      ensures Merge(some[i], Latest(updates, some[i].mint)) == some[i]
    {
      FromPool(some, known, i);
      var k :| 0 <= k < |known| && known[k] == some[i];
      assert known[k] == Merge(ts[k], Latest(updates, ts[k].mint));
    }
  }

  /** A curve event delivered twice is a curve event delivered once: a reconnecting stream
      that replays one reshuffles nothing. */
  lemma ReplayedCurvesChangeNothing(l: Lanes, updates: seq<Update>)
    requires Inv(l)
    ensures CurvesOf(CurvesOf(l, updates), updates) == CurvesOf(l, updates)
  {
    if updates != [] {
      var next := CurvesOf(l, updates);
      CurvesKeepInv(l, updates);
      CurvesFit(l, updates);
      CurvesSettle(l, updates);
      AppliedAgain(l.All(), updates, next.All());
      CurvesRebuild(next, updates);
      RebuiltAgain(next, Launched);
      RebuiltAgain(next, Bonding);
      RebuiltAgain(next, Bonded);
    }
  }
}
