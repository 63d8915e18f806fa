/** What the binders search for, without loops (src/trading/identification/binders.py). */
module Search {
  import opened Wrappers
  import opened Contracts
  import opened Ordering
  import opened Scoring
  import D = Decimals

  datatype Structure =
    | DebitSpread(side: OptionType)
    | CreditSpread(side: OptionType, maxRiskRatio: Option<real>)
    | IronCondor
    | IronButterfly
    | LongButterfly(side: OptionType)
    | VolatilityPair(sameStrike: bool)

  /** One binding request after the instrument-master filter. */
  datatype Desk = Desk(universe: seq<Snapshot>, policy: Policy, p1: Option<Observed>) {
    predicate Valid() {
      policy.Valid() && (p1.Some? ==> p1.value.Valid())
    }
  }

  function Strike(c: Snapshot): real { c.contract.strike.GetOr(0.0) }

  predicate Struck(c: Snapshot) { c.contract.strike.Some? }

  /** True when every leg shares one non-null expiry. */
  predicate SameExpiry(legs: seq<Snapshot>) {
    && (forall i | 0 <= i < |legs| :: legs[i].contract.expiry.Some?)
    && (forall i | 0 < i < |legs| :: legs[i].contract.expiry == legs[0].contract.expiry)
  }

  // ------------------------------------------------------------ pair validity

  function Width(long: Snapshot, short: Snapshot): real { D.Abs(Strike(long) - Strike(short)) }

  function CostPoints(long: Snapshot, policy: Policy): real
    requires long.lotSize.Some? && long.lotSize.value > 0.0
  {
    policy.roundTripCostPerLot / long.lotSize.value
  }

  predicate Priced(long: Snapshot, short: Snapshot) {
    && long.market.ask.Some? && short.market.bid.Some?
    && long.lotSize.Some? && long.lotSize.value > 0.0
  }

  function Debit(long: Snapshot, short: Snapshot, policy: Policy): real
    requires Priced(long, short)
  {
    long.market.ask.value - short.market.bid.value + CostPoints(long, policy)
  }

  function NetCredit(long: Snapshot, short: Snapshot, policy: Policy): real
    requires Priced(long, short)
  {
    short.market.bid.value - long.market.ask.value - CostPoints(long, policy)
  }

  /** Same expiry, two different strikes. */
  predicate Vertical(long: Snapshot, short: Snapshot) {
    && long.contract.expiry == short.contract.expiry
    && Struck(long) && Struck(short) && Strike(long) != Strike(short)
  }

  predicate DebitTest(debit: real, width: real, minRewardRisk: real) {
    if debit <= 0.0 || debit >= width then false
    else (width - debit) / debit >= minRewardRisk
  }

  predicate ValidDebitPair(long: Snapshot, short: Snapshot, side: OptionType, policy: Policy) {
    if !Vertical(long, short) then false
    else if side.Call? && Strike(long) >= Strike(short) then false
    else if side.Put? && Strike(long) <= Strike(short) then false
    else if !Priced(long, short) then false
    else DebitTest(Debit(long, short, policy), Width(long, short), policy.minRewardRisk)
  }

  /** A request without its own cap falls back to a ratio of four. */
  function RiskCap(maxRiskRatio: Option<real>): real { maxRiskRatio.GetOr(4.0) }

  predicate CreditTest(credit: real, width: real, cap: real) {
    if credit <= 0.0 || credit >= width then false
    else (width - credit) / credit <= cap
  }

  predicate ValidCreditPair(
    long: Snapshot, short: Snapshot, side: OptionType, policy: Policy, maxRiskRatio: Option<real>)
  {
    if !Vertical(long, short) then false
    else if side.Put? && Strike(long) >= Strike(short) then false
    else if side.Call? && Strike(long) <= Strike(short) then false
    else if !Priced(long, short) then false
    else CreditTest(NetCredit(long, short, policy), Width(long, short), RiskCap(maxRiskRatio))
  }

  // ------------------------------------------------------------ leg structures

  function LegCount(s: Structure): nat {
    match s
    case DebitSpread(_) => 2
    case CreditSpread(_, _) => 2
    case VolatilityPair(_) => 2
    case LongButterfly(_) => 3
    case IronCondor => 4
    case IronButterfly => 4
  }

  predicate OfSide(c: Snapshot, side: OptionType) { c.contract.optionType == Some(side) }

  function LongRange(policy: Policy): DeltaRange { DeltaRange(policy.longDeltaMin, policy.longDeltaMax) }

  function ShortRange(policy: Policy): DeltaRange { DeltaRange(policy.shortDeltaMin, policy.shortDeltaMax) }

  predicate LongDeltaOk(c: Snapshot, policy: Policy) {
    AbsDeltaInRange(c, policy.longDeltaMin, policy.longDeltaMax)
  }

  predicate ShortDeltaOk(c: Snapshot, policy: Policy) {
    AbsDeltaInRange(c, policy.shortDeltaMin, policy.shortDeltaMax)
  }

  /** Long put, short put, short call, long call: strikes strictly rise, or the two shorts meet. */
  predicate Wings(s: Structure, legs: seq<Snapshot>)
    requires |legs| == 4
  {
    && OfSide(legs[0], Put) && OfSide(legs[1], Put) && OfSide(legs[2], Call) && OfSide(legs[3], Call)
    && (forall i | 0 <= i < 4 :: Struck(legs[i]))
    && Strike(legs[0]) < Strike(legs[1])
    && (if s.IronCondor? then Strike(legs[1]) < Strike(legs[2]) else Strike(legs[1]) == Strike(legs[2]))
    && Strike(legs[2]) < Strike(legs[3])
    && SameExpiry(legs)
  }

  predicate EvenlySpaced(legs: seq<Snapshot>)
    requires |legs| == 3
  {
    && (forall i | 0 <= i < 3 :: Struck(legs[i]))
    && Strike(legs[2]) - Strike(legs[1]) == Strike(legs[1]) - Strike(legs[0])
    && SameExpiry(legs)
  }

  predicate Shape(s: Structure, legs: seq<Snapshot>, policy: Policy)
    requires |legs| == LegCount(s)
  {
    match s
    case DebitSpread(side) =>
      && OfSide(legs[0], side) && OfSide(legs[1], side)
      && LongDeltaOk(legs[0], policy) && ShortDeltaOk(legs[1], policy)
      && ValidDebitPair(legs[0], legs[1], side, policy)
    case CreditSpread(side, cap) =>
      && OfSide(legs[0], side) && OfSide(legs[1], side)
      && ValidCreditPair(legs[0], legs[1], side, policy, cap)
    case VolatilityPair(sameStrike) =>
      && OfSide(legs[0], Put) && OfSide(legs[1], Call)
      && Struck(legs[0]) && Struck(legs[1])
      && (if sameStrike then Strike(legs[0]) == Strike(legs[1]) else Strike(legs[0]) < Strike(legs[1]))
      && SameExpiry(legs)
    case LongButterfly(side) =>
      && OfSide(legs[0], side) && OfSide(legs[1], side) && OfSide(legs[2], side)
      && Strike(legs[0]) <= Strike(legs[1])
      && EvenlySpaced(legs)
    case IronCondor => Wings(s, legs)
    case IronButterfly => Wings(s, legs)
  }

  function UsableOf(universe: seq<Snapshot>, side: OptionType, policy: Policy): (pool: seq<Snapshot>)
    ensures forall c :: c in pool <==> c in universe && OfSide(c, side) && Usable(c, policy)
  {
    FilterMembers((c: Snapshot) => OfSide(c, side) && Usable(c, policy), universe);
    Filter((c: Snapshot) => OfSide(c, side) && Usable(c, policy), universe)
  }

  ghost predicate InFeedOrder(pool: seq<Snapshot>, legs: seq<Snapshot>) {
    exists i, j, k :: 0 <= i < j < k < |pool| && legs == [pool[i], pool[j], pool[k]]
  }

  /** A butterfly of width zero: the spacing test lets it through. */
  predicate ZeroWidth(s: Structure, legs: seq<Snapshot>)
    requires |legs| == LegCount(s)
  {
    s.LongButterfly? && Strike(legs[0]) == Strike(legs[1])
  }

  /** The brute-force search space: every tuple of usable candidates with the right shape.
      The legs of a zero-width butterfly tie in the strike sort, so they keep the feed order. */
  ghost predicate Admissible(s: Structure, desk: Desk, legs: seq<Snapshot>) {
    && |legs| == LegCount(s)
    && (forall i | 0 <= i < |legs| :: legs[i] in desk.universe && Usable(legs[i], desk.policy))
    && Shape(s, legs, desk.policy)
    && (ZeroWidth(s, legs) ==> InFeedOrder(UsableOf(desk.universe, s.side, desk.policy), legs))
  }

  function LegScore(desk: Desk, c: Snapshot, range: DeltaRange, role: Role): real
    requires desk.Valid()
  {
    CandidateScore(c, desk.universe, desk.policy, range, desk.p1, role)
  }

  const WING_RANGE := DeltaRange(0.05, 0.25)

  /** Mean quality of the four legs of a condor. */
  function MeanWingScore(desk: Desk, legs: seq<Snapshot>): real
    requires desk.Valid() && |legs| == 4
  {
    var short := ShortRange(desk.policy);
    (LegScore(desk, legs[0], WING_RANGE, LongRole) + LegScore(desk, legs[1], short, ShortRole)
     + LegScore(desk, legs[2], short, ShortRole) + LegScore(desk, legs[3], WING_RANGE, LongRole)) / 4.0
  }

  /** Points by which one wing of a condor is wider than the other. */
  function WingMismatch(legs: seq<Snapshot>): real
    requires |legs| == 4
  {
    D.Abs(Width(legs[1], legs[0]) - Width(legs[3], legs[2]))
  }

  function RawScore(s: Structure, desk: Desk, legs: seq<Snapshot>): real
    requires desk.Valid() && |legs| == LegCount(s)
  {
    var long, short := LongRange(desk.policy), ShortRange(desk.policy);
    match s
    case DebitSpread(_) =>
      (LegScore(desk, legs[0], long, LongRole) + LegScore(desk, legs[1], short, ShortRole)) / 2.0
    case CreditSpread(_, _) =>
      (LegScore(desk, legs[0], DeltaRange(0.05, desk.policy.shortDeltaMax), LongRole)
       + LegScore(desk, legs[1], short, ShortRole)) / 2.0
    case VolatilityPair(_) =>
      (LegScore(desk, legs[0], long, LongRole) + LegScore(desk, legs[1], long, LongRole)) / 2.0
    case LongButterfly(_) =>
      (LegScore(desk, legs[0], long, LongRole) + LegScore(desk, legs[1], long, ShortRole)
       + LegScore(desk, legs[2], long, LongRole)) / 3.0
    case IronButterfly =>
      (LegScore(desk, legs[0], long, LongRole) + LegScore(desk, legs[1], long, ShortRole)
       + LegScore(desk, legs[2], long, ShortRole) + LegScore(desk, legs[3], long, LongRole)) / 4.0
    case IronCondor =>
      MeanWingScore(desk, legs) - WingMismatch(legs) / 1000.0
  }

  // ------------------------------------------------------------------ ranking

  datatype Row = Row(score: real, legs: seq<Snapshot>)

  function RowOf(s: Structure, desk: Desk, legs: seq<Snapshot>): Row
    requires desk.Valid() && |legs| == LegCount(s)
  {
    Row(Q6(RawScore(s, desk, legs)), legs)
  }

  /** The sort key of every search: score falling, then the leg symbols. */
  predicate RowLess(a: Row, b: Row) {
    || a.score > b.score
    || (a.score == b.score && SymbolsLess(Symbols(a.legs), Symbols(b.legs)))
  }

  lemma RowLessStrictWeak()
    ensures StrictWeak(RowLess)
  {
    SymbolsLessStrictTotal();
    StrictTotalIsWeak(SymbolsLess);
  }

  /** The lexicographic optimum over the whole search space. */
  ghost predicate Best(s: Structure, desk: Desk, legs: seq<Snapshot>)
    requires desk.Valid()
  {
    && Admissible(s, desk, legs)
    && forall other | Admissible(s, desk, other) ::
         !RowLess(RowOf(s, desk, other), RowOf(s, desk, legs))
  }

  /** A search found the whole space and nothing else. */
  ghost predicate Covers(s: Structure, desk: Desk, found: seq<seq<Snapshot>>) {
    forall legs :: legs in found <==> Admissible(s, desk, legs)
  }

  /** It found every tuple once. */
  ghost predicate CoversOnce(s: Structure, desk: Desk, found: seq<seq<Snapshot>>) {
    forall legs :: multiset(found)[legs] == if Admissible(s, desk, legs) then 1 else 0
  }

  lemma DistinctSymbolsDetermine(items: seq<Snapshot>, a: Snapshot, b: Snapshot)
    requires DistinctSymbols(items) && a in items && b in items && a.Symbol() == b.Symbol()
    ensures a == b
  {
    var i :| 0 <= i < |items| && items[i] == a;
    var j :| 0 <= j < |items| && items[j] == b;
  }

  // ------------------------------------------------------------------ outcome

  datatype Binding =
    | Unbound(reason: Reason, rejected: seq<string>)
    | Bound(score: real, selected: seq<string>, legs: seq<Snapshot>, rejected: seq<string>)
    | ScoreRefused(score: real)  // the binding model refuses a score outside [0, 1]

  /** The iron butterfly reports its long legs first. */
  function Presented(s: Structure, legs: seq<Snapshot>): seq<Snapshot>
    requires |legs| == LegCount(s)
  {
    if s.IronButterfly? then [legs[0], legs[3], legs[1], legs[2]] else legs
  }

  function Rejected(all: seq<Snapshot>, selected: seq<string>): seq<string> {
    Sort(StringLess, Filter(symbol => symbol !in selected, Symbols(all)))
  }

  function Outcome(s: Structure, desk: Desk, all: seq<Snapshot>, legs: seq<Snapshot>): Binding
    requires desk.Valid() && |legs| == LegCount(s)
  {
    var score, shown := RowOf(s, desk, legs).score, Presented(s, legs);
    if 0.0 <= score <= 1.0
    then Bound(score, Symbols(shown), shown, Rejected(all, Symbols(shown)))
    else ScoreRefused(score)
  }

  /** What a search must return, whatever loops it runs: the optimum of the search space, or a
      refusal exactly when the space is empty. */
  ghost predicate Binds(s: Structure, desk: Desk, all: seq<Snapshot>, b: Binding)
    requires desk.Valid()
  {
    if exists legs :: Admissible(s, desk, legs) then
      exists legs :: Best(s, desk, legs) && b == Outcome(s, desk, all, legs)
    else
      b == Unbound(DominantReason(desk.universe, desk.policy), Rejected(all, []))
  }

  lemma RejectedSameMembers(all: seq<Snapshot>, all': seq<Snapshot>, selected: seq<string>)
    requires Permutation(all, all')
    ensures Rejected(all, selected) == Rejected(all', selected)
  {
    var p := (symbol: string) => symbol !in selected;
    SymbolsPermutation(all, all');
    FilterPermutation(p, Symbols(all), Symbols(all'));
    StringLessStrictTotal();
    StrictTotalIsWeak(StringLess);
    SortSorted(StringLess, Filter(p, Symbols(all)));
    SortSorted(StringLess, Filter(p, Symbols(all')));
    SortPermutes(StringLess, Filter(p, Symbols(all)));
    SortPermutes(StringLess, Filter(p, Symbols(all')));
    SortedUnique(StringLess, Rejected(all, selected), Rejected(all', selected));
  }

  // --------------------------------------------------------------- partitions

  /** No candidate is used twice in one structure. */
  lemma LegsDiffer(s: Structure, desk: Desk, legs: seq<Snapshot>, i: nat, j: nat)
    requires Admissible(s, desk, legs) && i < j < |legs|
    requires s.LongButterfly? ==> DistinctSymbols(desk.universe)
    ensures legs[i] != legs[j]
  {
    if ZeroWidth(s, legs) {
      var p := (c: Snapshot) => OfSide(c, s.side) && Usable(c, desk.policy);
      FilterDistinct(p, desk.universe);
    }
  }

  lemma {:induction false} FilterDistinct(p: Snapshot -> bool, items: seq<Snapshot>)
    requires DistinctSymbols(items)
    ensures DistinctSymbols(Filter(p, items))
  {
    if items != [] {
      var n := |items| - 1;
      FilterDistinct(p, items[..n]);
      var kept := Filter(p, items[..n]);
      FilterMembers(p, items[..n]);
      forall i | 0 <= i < |kept| ensures kept[i].Symbol() != items[n].Symbol() {
        assert kept[i] in items[..n];
        var x :| 0 <= x < n && items[x] == kept[i];
      }
    }
  }

  lemma CountAtMostOne(items: seq<Snapshot>, symbol: string)
    requires DistinctSymbols(items)
    ensures multiset(Symbols(items))[symbol] <= 1
  {
    if items != [] {
      var n := |items| - 1;
      CountAtMostOne(items[..n], symbol);
      assert Symbols(items) == Symbols(items[..n]) + [items[n].Symbol()];
      assert multiset(Symbols(items)) == multiset(Symbols(items[..n])) + multiset{items[n].Symbol()};
      if symbol == items[n].Symbol() {
        assert symbol !in Symbols(items[..n]);
      }
    }
  }

  lemma SymbolsMember(items: seq<Snapshot>, c: Snapshot)
    requires c in items
    ensures c.Symbol() in Symbols(items)
  {
    var i :| 0 <= i < |items| && items[i] == c;
    assert Symbols(items)[i] == c.Symbol();
  }

  /** Selected and rejected symbols together are the feed's symbols, each once. */
  lemma SelectedAndRejectedPartition(
    s: Structure, desk: Desk, all: seq<Snapshot>, legs: seq<Snapshot>)
    requires desk.Valid() && Admissible(s, desk, legs)
    requires DistinctSymbols(all) && DistinctSymbols(desk.universe)
    requires forall c | c in desk.universe :: c in all
    ensures var b := Outcome(s, desk, all, legs); b.Bound? ==>
              multiset(b.selected) + multiset(b.rejected) == multiset(Symbols(all))
  {
    ShownLegsAreDistinct(s, desk, all, legs);
    KeptAndDroppedPartition(all, Presented(s, legs));
  }

  lemma ShownLegsAreDistinct(s: Structure, desk: Desk, all: seq<Snapshot>, legs: seq<Snapshot>)
    requires Admissible(s, desk, legs) && DistinctSymbols(all) && DistinctSymbols(desk.universe)
    requires forall c | c in desk.universe :: c in all
    ensures DistinctSymbols(Presented(s, legs))
    ensures forall i | 0 <= i < |Presented(s, legs)| :: Presented(s, legs)[i] in all
  {
    var shown := Presented(s, legs);
    forall i, j | 0 <= i < j < |shown| ensures shown[i].Symbol() != shown[j].Symbol() {
      ShownLegsDiffer(s, desk, legs, i, j);
      if shown[i].Symbol() == shown[j].Symbol() {
        DistinctSymbolsDetermine(all, shown[i], shown[j]);
      }
    }
    forall i | 0 <= i < |shown| ensures shown[i] in all {
      ShownLegsDiffer(s, desk, legs, if i == 0 then 0 else i - 1, if i == 0 then 1 else i);
    }
  }

  lemma KeptAndDroppedPartition(all: seq<Snapshot>, shown: seq<Snapshot>)
    requires DistinctSymbols(all) && DistinctSymbols(shown)
    requires forall i | 0 <= i < |shown| :: shown[i] in all
    ensures multiset(Symbols(shown)) + multiset(Rejected(all, Symbols(shown))) == multiset(Symbols(all))
  {
    var selected := Symbols(shown);
    var p := (symbol: string) => symbol !in selected;
    forall symbol: string
      ensures (multiset(selected) + multiset(Filter(p, Symbols(all))))[symbol]
           == multiset(Symbols(all))[symbol]
    {
      FilterCount(p, Symbols(all), symbol);
      CountAtMostOne(all, symbol);
      CountAtMostOne(shown, symbol);
      if symbol in selected {
        var i :| 0 <= i < |selected| && selected[i] == symbol;
        SymbolsMember(all, shown[i]);
      }
    }
    assert multiset(selected) + multiset(Filter(p, Symbols(all))) == multiset(Symbols(all));
    SortPermutes(StringLess, Filter(p, Symbols(all)));
  }

  lemma ShownLegsDiffer(s: Structure, desk: Desk, legs: seq<Snapshot>, i: nat, j: nat)
    requires Admissible(s, desk, legs) && DistinctSymbols(desk.universe) && i < j < |legs|
    ensures Presented(s, legs)[i] != Presented(s, legs)[j]
    ensures Presented(s, legs)[i] in desk.universe && Presented(s, legs)[j] in desk.universe
  {
    forall m, n | 0 <= m < n < |legs| ensures legs[m] != legs[n] {
      LegsDiffer(s, desk, legs, m, n);
    }
  }
}
