/** Which way a bound structure bets, over settlement prices. */
module Direction {
  import opened Wrappers
  import opened Contracts
  import opened Search
  import opened Binders
  import L = LongOption
  import P = Payoff
  import D = Decimals

  /** What one option is worth at expiry, by its own type and strike. */
  function Worth(c: Snapshot, s: real): real {
    match c.contract.optionType
    case Some(Call) => D.Max(0.0, s - Strike(c))
    case Some(Put) => D.Max(0.0, Strike(c) - s)
    case None => 0.0
  }

  function Pays(c: Snapshot): real -> real { (s: real) => Worth(c, s) }

  /** Profit of holding the first leg against the second, opened for `paid` points. */
  function SpreadPnl(legs: seq<Snapshot>, paid: real): real -> real
    requires |legs| == 2
  {
    (s: real) => Worth(legs[0], s) - Worth(legs[1], s) - paid
  }

  /** Never falls as the settlement rises, and somewhere rises. */
  ghost predicate GainsAsItRises(pnl: real -> real) {
    && (forall s: real, t: real :: s <= t ==> pnl(s) <= pnl(t))
    && (exists s: real, t: real :: s < t && pnl(s) < pnl(t))
  }

  ghost predicate GainsAsItFalls(pnl: real -> real) {
    && (forall s: real, t: real :: s <= t ==> pnl(s) >= pnl(t))
    && (exists s: real, t: real :: s < t && pnl(s) > pnl(t))
  }

  predicate BothOf(legs: seq<Snapshot>, side: OptionType) {
    |legs| == 2 && legs[0].contract.optionType == legs[1].contract.optionType == Some(side)
  }

  lemma LowerLongGainsAsItRises(legs: seq<Snapshot>, side: OptionType, paid: real)
    requires BothOf(legs, side) && Strike(legs[0]) < Strike(legs[1])
    ensures GainsAsItRises(SpreadPnl(legs, paid))
  {
    var pnl, k, m := SpreadPnl(legs, paid), Strike(legs[0]), Strike(legs[1]);
    assert pnl(k) < pnl(m);
  }

  lemma HigherLongGainsAsItFalls(legs: seq<Snapshot>, side: OptionType, paid: real)
    requires BothOf(legs, side) && Strike(legs[0]) > Strike(legs[1])
    ensures GainsAsItFalls(SpreadPnl(legs, paid))
  {
    var pnl, k, m := SpreadPnl(legs, paid), Strike(legs[1]), Strike(legs[0]);
    assert pnl(k) > pnl(m);
  }

  lemma BoundIn(s: Structure, desk: Desk, all: seq<Snapshot>, b: Binding)
    requires desk.Valid() && Binds(s, desk, all, b) && b.Bound? && !s.IronButterfly?
    ensures Admissible(s, desk, b.legs)
  {
    var legs :| Best(s, desk, legs) && b == Outcome(s, desk, all, legs);
    assert b.legs == legs;
  }

  lemma DebitShape(side: OptionType, desk: Desk, legs: seq<Snapshot>)
    requires Admissible(DebitSpread(side), desk, legs)
    ensures BothOf(legs, side)
    ensures if side.Call? then Strike(legs[0]) < Strike(legs[1]) else Strike(legs[0]) > Strike(legs[1])
  {
  }

  lemma CreditShape(side: OptionType, cap: Option<real>, desk: Desk, legs: seq<Snapshot>)
    requires Admissible(CreditSpread(side, cap), desk, legs)
    ensures BothOf(legs, side)
    ensures if side.Call? then Strike(legs[0]) > Strike(legs[1]) else Strike(legs[0]) < Strike(legs[1])
  {
  }

  lemma BoundDebit(side: OptionType, desk: Desk, all: seq<Snapshot>, b: Binding)
    requires desk.Valid() && Binds(DebitSpread(side), desk, all, b) && b.Bound?
    ensures BothOf(b.legs, side)
    ensures if side.Call? then Strike(b.legs[0]) < Strike(b.legs[1]) else Strike(b.legs[0]) > Strike(b.legs[1])
  {
    BoundIn(DebitSpread(side), desk, all, b);
    DebitShape(side, desk, b.legs);
  }

  lemma BoundCredit(side: OptionType, cap: Option<real>, desk: Desk, all: seq<Snapshot>, b: Binding)
    requires desk.Valid() && Binds(CreditSpread(side, cap), desk, all, b) && b.Bound?
    ensures BothOf(b.legs, side)
    ensures if side.Call? then Strike(b.legs[0]) > Strike(b.legs[1]) else Strike(b.legs[0]) < Strike(b.legs[1])
  {
    BoundIn(CreditSpread(side, cap), desk, all, b);
    CreditShape(side, cap, desk, b.legs);
  }

  lemma TrendPlan(family: Family, r: Request)
    ensures family.DebitFamily? && Plan(family, r).Ok? ==>
              && (r.trend.Up? || r.trend.Down?)
              && Plan(family, r).value == DebitSpread(if r.trend.Up? then Call else Put)
    ensures family.CreditFamily? && Plan(family, r).Ok? ==>
              && (r.trend.Up? || r.trend.Down?)
              && (family.kind.BullPutCredit? ==> r.trend.Up?) && (family.kind.BearCallCredit? ==> r.trend.Down?)
              && Plan(family, r).value == CreditSpread(if r.trend.Up? then Put else Call, family.maxRiskRatio)
  {
  }

  /** A debit spread follows the trend: calls that gain as the underlying rises in an uptrend, puts
      that gain as it falls in a downtrend, whatever was paid; without a trend none is bound. */
  lemma DebitFollowsTheTrend(r: Request, b: Binding, paid: real)
    requires r.Valid() && Honours(DebitFamily, r, b) && b.Bound?
    ensures r.trend.Up? || r.trend.Down?
    ensures r.trend.Up? ==> BothOf(b.legs, Call) && GainsAsItRises(SpreadPnl(b.legs, paid))
    ensures r.trend.Down? ==> BothOf(b.legs, Put) && GainsAsItFalls(SpreadPnl(b.legs, paid))
  {
    TrendPlan(DebitFamily, r);
    if r.trend.Up? {
      BoundDebit(Call, r.Desk(), r.all, b);
      LowerLongGainsAsItRises(b.legs, Call, paid);
    } else if r.trend.Down? {
      BoundDebit(Put, r.Desk(), r.all, b);
      HigherLongGainsAsItFalls(b.legs, Put, paid);
    }
  }

  /** A credit spread follows the trend too, with puts in an uptrend and calls in a downtrend; the
      bullish kind binds only in an uptrend and the bearish one only in a downtrend. */
  lemma CreditFollowsTheTrend(kind: CreditKind, cap: Option<real>, r: Request, b: Binding, paid: real)
    requires r.Valid() && Honours(CreditFamily(kind, cap), r, b) && b.Bound?
    ensures r.trend.Up? || r.trend.Down?
    ensures (kind.BullPutCredit? ==> r.trend.Up?) && (kind.BearCallCredit? ==> r.trend.Down?)
    ensures r.trend.Up? ==> BothOf(b.legs, Put) && GainsAsItRises(SpreadPnl(b.legs, paid))
    ensures r.trend.Down? ==> BothOf(b.legs, Call) && GainsAsItFalls(SpreadPnl(b.legs, paid))
  {
    TrendPlan(CreditFamily(kind, cap), r);
    if r.trend.Up? {
      BoundCredit(Put, cap, r.Desk(), r.all, b);
      LowerLongGainsAsItRises(b.legs, Put, paid);
    } else if r.trend.Down? {
      BoundCredit(Call, cap, r.Desk(), r.all, b);
      HigherLongGainsAsItFalls(b.legs, Call, paid);
    }
  }

  /** The two legs together pay by how far the settlement leaves the strikes. */
  ghost predicate PaysBothWays(legs: seq<Snapshot>, sameStrike: bool) {
    && |legs| == 2 && Strike(legs[0]) <= Strike(legs[1])
    && (sameStrike <==> Strike(legs[0]) == Strike(legs[1]))
    && forall s: real :: Worth(legs[0], s) + Worth(legs[1], s) == Beyond(Strike(legs[0]), Strike(legs[1]), s)
  }

  function Beyond(low: real, high: real, s: real): real {
    if s < low then low - s else if s > high then s - high else 0.0
  }

  /** A straddle or strangle pays for a move either way. */
  lemma VolatilityPaysBothWays(sameStrike: bool, r: Request, b: Binding)
    requires r.Valid() && Honours(VolatilityFamily(sameStrike), r, b) && b.Bound?
    ensures PaysBothWays(b.legs, sameStrike)
  {
    VolatilityPlan(sameStrike, r);
    AnsweredVolatility(sameStrike, Plan(VolatilityFamily(sameStrike), r), r, b);
  }

  lemma VolatilityPlan(sameStrike: bool, r: Request)
    ensures var plan := Plan(VolatilityFamily(sameStrike), r); plan.Ok? ==> plan.value == VolatilityPair(sameStrike)
  {
  }

  lemma AnsweredVolatility(sameStrike: bool, plan: Result<Structure, Reason>, r: Request, b: Binding)
    requires r.Valid() && Answers(plan, r, b) && b.Bound?
    requires plan.Ok? ==> plan.value == VolatilityPair(sameStrike)
    ensures PaysBothWays(b.legs, sameStrike)
  {
    Planned(plan, r, b);
    BoundVolatility(sameStrike, plan.value, r.Desk(), r.all, b);
  }

  lemma Planned(plan: Result<Structure, Reason>, r: Request, b: Binding)
    requires r.Valid() && Answers(plan, r, b) && b.Bound?
    ensures plan.Ok? && Binds(plan.value, r.Desk(), r.all, b)
  {
  }

  lemma BoundVolatility(sameStrike: bool, s: Structure, desk: Desk, all: seq<Snapshot>, b: Binding)
    requires s == VolatilityPair(sameStrike) && desk.Valid() && Binds(s, desk, all, b) && b.Bound?
    ensures PaysBothWays(b.legs, sameStrike)
  {
    BoundIn(s, desk, all, b);
    VolatilityShape(sameStrike, desk, b.legs);
    StrangleWorth(b.legs, sameStrike);
  }

  lemma VolatilityShape(sameStrike: bool, desk: Desk, legs: seq<Snapshot>)
    requires Admissible(VolatilityPair(sameStrike), desk, legs)
    ensures |legs| == 2 && OfSide(legs[0], Put) && OfSide(legs[1], Call) && Strike(legs[0]) <= Strike(legs[1])
    ensures sameStrike <==> Strike(legs[0]) == Strike(legs[1])
  {
  }

  lemma StrangleWorth(legs: seq<Snapshot>, sameStrike: bool)
    requires |legs| == 2 && OfSide(legs[0], Put) && OfSide(legs[1], Call) && Strike(legs[0]) <= Strike(legs[1])
    requires sameStrike <==> Strike(legs[0]) == Strike(legs[1])
    ensures PaysBothWays(legs, sameStrike)
  {
  }

  // ------------------------------------------------------------- bets on no movement

  /** Two puts below two calls, nothing owed exactly while the settlement stays between the inner strikes. */
  ghost predicate KeepsInside(legs: seq<Snapshot>) {
    && |legs| == 4
    && OfSide(legs[0], Put) && OfSide(legs[1], Put) && OfSide(legs[2], Call) && OfSide(legs[3], Call)
    && Strike(legs[0]) < Strike(legs[1]) <= Strike(legs[2]) < Strike(legs[3])
    && forall s: real :: P.Owed(legs)(s) == 0.0 <==> Strike(legs[1]) <= s <= Strike(legs[2])
  }

  lemma WingsKeepInside(s: Structure, desk: Desk, legs: seq<Snapshot>)
    requires (s.IronCondor? || s.IronButterfly?) && Admissible(s, desk, legs)
    ensures KeepsInside(legs)
    ensures s.IronButterfly? <==> Strike(legs[1]) == Strike(legs[2])
  {
    WingSides(s, desk, legs);
    OwedOutside(legs);
  }

  lemma WingSides(s: Structure, desk: Desk, legs: seq<Snapshot>)
    requires (s.IronCondor? || s.IronButterfly?) && Admissible(s, desk, legs)
    ensures |legs| == 4
    ensures OfSide(legs[0], Put) && OfSide(legs[1], Put) && OfSide(legs[2], Call) && OfSide(legs[3], Call)
    ensures Strike(legs[0]) < Strike(legs[1]) <= Strike(legs[2]) < Strike(legs[3])
    ensures s.IronButterfly? <==> Strike(legs[1]) == Strike(legs[2])
  {
  }

  lemma OwedOutside(legs: seq<Snapshot>)
    requires |legs| == 4 && Strike(legs[0]) < Strike(legs[1]) <= Strike(legs[2]) < Strike(legs[3])
    ensures forall s: real :: P.Owed(legs)(s) == 0.0 <==> Strike(legs[1]) <= s <= Strike(legs[2])
  {
  }

  lemma BoundWings(s: Structure, desk: Desk, all: seq<Snapshot>, b: Binding) returns (legs: seq<Snapshot>)
    requires (s.IronCondor? || s.IronButterfly?) && desk.Valid() && Binds(s, desk, all, b) && b.Bound?
    ensures |legs| == 4 && b.legs == Presented(s, legs) && KeepsInside(legs)
    ensures s.IronButterfly? <==> Strike(legs[1]) == Strike(legs[2])
  {
    legs :| Best(s, desk, legs) && b == Outcome(s, desk, all, legs);
    WingsKeepInside(s, desk, legs);
  }

  lemma RangePlan(family: Family, r: Request)
    ensures family.CondorFamily? && Plan(family, r).Ok? ==> r.trend.Range? && Plan(family, r).value == IronCondor
    ensures family.IronButterflyFamily? && Plan(family, r).Ok? ==>
              r.trend.Range? && Plan(family, r).value == IronButterfly
    ensures family.LongButterflyFamily? && Plan(family, r).Ok? ==>
              r.trend.Range? && Plan(family, r).value == LongButterfly(family.side)
  {
  }

  /** A condor is bound in a range only, and keeps what it brought in exactly while the settlement stays between
      its two sold strikes, which differ. */
  lemma CondorKeepsInside(r: Request, b: Binding)
    requires r.Valid() && Honours(CondorFamily, r, b) && b.Bound?
    ensures r.trend.Range? && KeepsInside(b.legs) && Strike(b.legs[1]) < Strike(b.legs[2])
  {
    RangePlan(CondorFamily, r);
    Planned(Plan(CondorFamily, r), r, b);
    var legs := BoundWings(IronCondor, r.Desk(), r.all, b);
  }

  /** A short iron butterfly, reported with its bought put and call first, keeps it at one strike alone. */
  lemma IronButterflyKeepsAtOneStrike(r: Request, b: Binding)
    requires r.Valid() && Honours(IronButterflyFamily, r, b) && b.Bound?
    ensures r.trend.Range? && |b.legs| == 4
    ensures KeepsInside([b.legs[0], b.legs[2], b.legs[3], b.legs[1]]) && Strike(b.legs[2]) == Strike(b.legs[3])
  {
    RangePlan(IronButterflyFamily, r);
    Planned(Plan(IronButterflyFamily, r), r, b);
    BoundAtOneStrike(r.Desk(), r.all, b);
  }

  lemma BoundAtOneStrike(desk: Desk, all: seq<Snapshot>, b: Binding)
    requires desk.Valid() && Binds(IronButterfly, desk, all, b) && b.Bound?
    ensures |b.legs| == 4
    ensures KeepsInside([b.legs[0], b.legs[2], b.legs[3], b.legs[1]]) && Strike(b.legs[2]) == Strike(b.legs[3])
  {
    var legs := BoundWings(IronButterfly, desk, all, b);
    LongsFirst(legs, b.legs);
  }

  lemma LongsFirst(legs: seq<Snapshot>, shown: seq<Snapshot>)
    requires |legs| == 4 && shown == Presented(IronButterfly, legs)
    ensures |shown| == 4 && legs == [shown[0], shown[2], shown[3], shown[1]]
  {
  }

  /** A long butterfly of one side is worth something exactly between its outer strikes, and most in the middle. */
  ghost predicate PaysInside(legs: seq<Snapshot>, side: OptionType) {
    && |legs| == 3 && (forall i | 0 <= i < 3 :: OfSide(legs[i], side))
    && (forall s: real :: P.ButterflyValue(side, legs)(s) > 0.0 <==> Strike(legs[0]) < s < Strike(legs[2]))
    && (forall s: real :: P.ButterflyValue(side, legs)(s) <= P.ButterflyValue(side, legs)(Strike(legs[1])))
  }

  lemma ButterflyPaysInside(side: OptionType, r: Request, b: Binding)
    requires r.Valid() && Honours(LongButterflyFamily(side), r, b) && b.Bound?
    ensures r.trend.Range? && PaysInside(b.legs, side)
  {
    RangePlan(LongButterflyFamily(side), r);
    Planned(Plan(LongButterflyFamily(side), r), r, b);
    BoundIn(LongButterfly(side), r.Desk(), r.all, b);
    ButterflyShape(side, r.Desk(), b.legs);
    ButterflyWorth(side, b.legs);
  }

  lemma ButterflyShape(side: OptionType, desk: Desk, legs: seq<Snapshot>)
    requires Admissible(LongButterfly(side), desk, legs)
    ensures |legs| == 3 && OfSide(legs[0], side) && OfSide(legs[1], side) && OfSide(legs[2], side)
    ensures Strike(legs[0]) <= Strike(legs[1])
    ensures Strike(legs[2]) - Strike(legs[1]) == Strike(legs[1]) - Strike(legs[0])
  {
  }

  lemma ButterflyWorth(side: OptionType, legs: seq<Snapshot>)
    requires |legs| == 3 && OfSide(legs[0], side) && OfSide(legs[1], side) && OfSide(legs[2], side)
    requires Strike(legs[0]) <= Strike(legs[1])
    requires Strike(legs[2]) - Strike(legs[1]) == Strike(legs[1]) - Strike(legs[0])
    ensures PaysInside(legs, side)
  {
  }

  /** The market a family binds in. */
  predicate Suits(family: Family, trend: Trend, volatility: Volatility) {
    match family
    case DebitFamily => trend.Up? || trend.Down?
    case CreditFamily(kind, _) => (trend.Up? && !kind.BearCallCredit?) || (trend.Down? && !kind.BullPutCredit?)
    case VolatilityFamily(_) => !volatility.Compressed?
    case _ => trend.Range?
  }

  /** A request binds nothing without candidates in the master, outside its market, or with an empty
      search space, and for no other cause; the first two are reported before the third. */
  lemma UnboundExactly(family: Family, r: Request, b: Binding)
    requires r.Valid() && Honours(family, r, b)
    ensures b.Unbound? <==>
              || (r.master.Some? && r.Desk().universe == [])
              || !Suits(family, r.trend, r.volatility)
              || !exists legs :: Admissible(Plan(family, r).value, r.Desk(), legs)
    ensures r.master.Some? && r.Desk().universe == [] ==> b == Unbound(InstrumentMasterAbsent, Rejected(r.all, []))
    ensures !(r.master.Some? && r.Desk().universe == []) && !Suits(family, r.trend, r.volatility) ==>
              b.Unbound? && (family.CreditFamily? ==> b.reason == DirectionUnresolved)
              && (!family.CreditFamily? && !family.DebitFamily? ==> b.reason == DataInvalid)
  {
    PlanSuits(family, r);
    if Plan(family, r).Ok? { UnboundWhenEmpty(Plan(family, r).value, r.Desk(), r.all, b); }
  }

  lemma PlanSuits(family: Family, r: Request)
    ensures Plan(family, r).Ok? <==>
              !(r.master.Some? && r.Desk().universe == []) && Suits(family, r.trend, r.volatility)
    ensures r.master.Some? && r.Desk().universe == [] ==> Plan(family, r) == Err(InstrumentMasterAbsent)
    ensures !(r.master.Some? && r.Desk().universe == []) && !Suits(family, r.trend, r.volatility) ==>
              && (family.CreditFamily? ==> Plan(family, r).error == DirectionUnresolved)
              && (!family.CreditFamily? && !family.DebitFamily? ==> Plan(family, r).error == DataInvalid)
  {
  }

  lemma UnboundWhenEmpty(s: Structure, desk: Desk, all: seq<Snapshot>, b: Binding)
    requires desk.Valid() && Binds(s, desk, all, b)
    ensures b.Unbound? <==> !exists legs :: Admissible(s, desk, legs)
  {
    if exists legs :: Admissible(s, desk, legs) {
      var legs :| Best(s, desk, legs) && b == Outcome(s, desk, all, legs);
    }
  }

  /** A weekly long option follows the trend: a call in an uptrend, a put in a downtrend. */
  lemma LongOptionFollowsTheTrend(q: L.LongRequest, b: L.LongBinding)
    requires q.Valid() && L.Answers(q, b) && b.Bound?
    ensures q.base.trend.Up? || q.base.trend.Down?
    ensures q.base.trend.Up? ==> GainsAsItRises(Pays(b.selected))
    ensures q.base.trend.Down? ==> GainsAsItFalls(Pays(b.selected))
  {
    L.BoundIsTheClosest(q, b);
    PayoffFollowsTheType(b.selected);
  }

  lemma PayoffFollowsTheType(c: Snapshot)
    ensures OfSide(c, Call) ==> GainsAsItRises(Pays(c))
    ensures OfSide(c, Put) ==> GainsAsItFalls(Pays(c))
  {
    var payoff, k := Pays(c), Strike(c);
    if OfSide(c, Call) { assert payoff(k) < payoff(k + 1.0); }
    if OfSide(c, Put) { assert payoff(k - 1.0) > payoff(k); }
  }
}
