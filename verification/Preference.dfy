/** What each observation of a candidate does for its gate and its score. */
module Preference {
  import opened Wrappers
  import opened Contracts
  import opened Scoring
  import D = Decimals

  lemma Quotient(a: real, s: real, q: real)
    requires s > 0.0
    ensures a == q * s <==> a / s == q
    ensures a <= q * s <==> a / s <= q
    ensures q * s <= a <==> q <= a / s
  {
    D.DivideTimes(a, s);
    var x := a / s;
    assert x * s == a;
    assert x <= q <==> x * s <= q * s;
    assert q <= x <==> q * s <= x * s;
  }

  // ------------------------------------------------------------------------- gates

  /** An option that may be traded: it has derivative fields, new exposure is permitted and its lot is known. */
  predicate Tradable(c: Snapshot) {
    c.contract.isOption && c.derivatives.Some? && c.permitsNewExposure && c.lotSize.Some? && c.lotSize.value > 0.0
  }

  predicate DeepEnough(c: Snapshot, floor: nat)
    requires c.derivatives.Some?
  {
    c.derivatives.value.openInterest.Some? && floor <= c.derivatives.value.openInterest.value
  }

  predicate GreeksKnown(c: Snapshot)
    requires c.derivatives.Some?
  {
    match c.derivatives.value.greeks
    case Some(g) => g.converged && g.delta.Some? && g.impliedVolatility.Some?
    case None => false
  }

  predicate TwoSided(c: Snapshot) {
    c.market.bid.Some? && c.market.ask.Some? && c.market.bid.value + c.market.ask.value > 0.0
  }

  /** The width of a two-sided book in units of its middle; a book without two sides, or without a positive
      middle, has none. */
  lemma SpreadInMiddles(c: Snapshot)
    ensures SpreadFraction(c).Some? <==> TwoSided(c)
    ensures TwoSided(c) ==>
              SpreadFraction(c).value * (c.market.bid.value + c.market.ask.value)
                == 2.0 * (c.market.ask.value - c.market.bid.value)
  {
    if TwoSided(c) {
      var bid, ask := c.market.bid.value, c.market.ask.value;
      D.DivideTimes(ask - bid, (bid + ask) / 2.0);
    }
  }

  predicate TightEnough(c: Snapshot, limit: real)
    requires TwoSided(c)
  {
    c.market.ask.value - c.market.bid.value <= limit * ((c.market.bid.value + c.market.ask.value) / 2.0)
  }

  lemma TightMeans(c: Snapshot, limit: real)
    requires TwoSided(c)
    ensures TightEnough(c, limit) <==> SpreadFraction(c).value <= limit
  {
    var bid, ask := c.market.bid.value, c.market.ask.value;
    Quotient(ask - bid, (bid + ask) / 2.0, limit);
  }

  /** What each refusal says of the candidate, and so what a candidate that is not refused has: the gates are
      tried in one order, and the first that fails is the one named. */
  lemma RefusalNamesTheFirstFault(c: Snapshot, floor: nat, limit: real)
    ensures GateReason(c, floor, limit) == Some(DataInvalid) <==>
              c.contract.isOption && c.derivatives.Some? && !c.permitsNewExposure
    ensures GateReason(c, floor, limit) == Some(InstrumentUnknown) <==>
              !Tradable(c) && !(c.contract.isOption && c.derivatives.Some? && !c.permitsNewExposure)
    ensures GateReason(c, floor, limit) == Some(DepthInsufficient) <==>
              Tradable(c) && c.topOfBookObserved == Some(1.0) && !DeepEnough(c, floor)
    ensures GateReason(c, floor, limit) == Some(DataGap) <==>
              Tradable(c) && c.topOfBookObserved == Some(1.0) && DeepEnough(c, floor) && !GreeksKnown(c)
    ensures GateReason(c, floor, limit) == Some(PriceUnavailable) <==>
              && Tradable(c)
              && (c.topOfBookObserved == Some(1.0) ==> DeepEnough(c, floor) && GreeksKnown(c) && !TwoSided(c))
    ensures GateReason(c, floor, limit) == Some(SpreadTooWide) <==>
              && Tradable(c) && c.topOfBookObserved == Some(1.0) && DeepEnough(c, floor) && GreeksKnown(c)
              && TwoSided(c) && !TightEnough(c, limit)
    ensures GateReason(c, floor, limit).None? <==>
              && Tradable(c) && c.topOfBookObserved == Some(1.0) && DeepEnough(c, floor) && GreeksKnown(c)
              && TwoSided(c) && TightEnough(c, limit)
  {
    SpreadInMiddles(c);
    if TwoSided(c) { TightMeans(c, limit); }
  }

  /** A delta counts by its size alone. */
  lemma DeltaIsSignBlind(c: Snapshot, g: Greeks, delta: real, low: real, high: real)
    requires 0.0 <= low && c.derivatives.Some?
    ensures var held := c.(derivatives := Some(c.derivatives.value.(greeks := Some(g.(delta := Some(delta))))));
            AbsDeltaInRange(held, low, high) <==> low <= delta <= high || low <= -delta <= high
    ensures var bare := c.(derivatives := Some(c.derivatives.value.(greeks := Some(g.(delta := None)))));
            !AbsDeltaInRange(bare, low, high)
  {
  }

  /** The days to expiry lie in one of two closed windows; between, before and after them nothing is usable. */
  lemma DaysLieInAWindow(c: Snapshot, policy: Policy, dte: nat)
    requires c.derivatives.Some? && c.derivatives.value.daysToExpiry == dte
    requires policy.weeklyDteMin <= policy.weeklyDteMax < policy.monthlyDteMin <= policy.monthlyDteMax
    ensures dte in {policy.weeklyDteMin, policy.weeklyDteMax, policy.monthlyDteMin, policy.monthlyDteMax} ==>
              DteOk(c, policy)
    ensures DteOk(c, policy) <==>
              && policy.weeklyDteMin <= dte <= policy.monthlyDteMax
              && !(policy.weeklyDteMax < dte < policy.monthlyDteMin)
  {
  }

  // ------------------------------------------------------------------------ shares

  /** A share is the reading's part of the peak, and nothing where there is no peak. */
  lemma ShareOf(value: real, peak: real)
    requires 0.0 <= value <= peak
    ensures Share(value, peak) * peak == value
    ensures value == peak > 0.0 ==> Share(value, peak) == 1.0
    ensures peak == 0.0 ==> Share(value, peak) == 0.0
  {
    if peak > 0.0 {
      Quotient(value, peak, 1.0);
      D.DivideTimes(value, peak);
    }
  }

  lemma PeakIsLargest(m: Measure, c: Snapshot, universe: seq<Snapshot>)
    requires c in universe && forall x | x in universe :: Reading(m, x) <= Reading(m, c)
    ensures Peak(m, universe) == Reading(m, c)
  {
  }

  /** The most open interest, and the largest volume, of a universe has the whole share. */
  lemma LargestHasTheWholeShare(c: Snapshot, universe: seq<Snapshot>)
    requires c in universe
    ensures OpenInterest(c) > 0.0 && (forall x | x in universe :: OpenInterest(x) <= OpenInterest(c)) ==>
              Share(OpenInterest(c), Peak(OfOpenInterest, universe)) == 1.0
    ensures Volume(c) > 0.0 && (forall x | x in universe :: Volume(x) <= Volume(c)) ==>
              Share(Volume(c), Peak(OfVolume, universe)) == 1.0
  {
    if forall x | x in universe :: OpenInterest(x) <= OpenInterest(c) {
      PeakIsLargest(OfOpenInterest, c, universe);
      ShareOf(OpenInterest(c), OpenInterest(c));
    }
    if forall x | x in universe :: Volume(x) <= Volume(c) {
      PeakIsLargest(OfVolume, c, universe);
      ShareOf(Volume(c), Volume(c));
    }
  }

  /** Full marks in the middle of the delta range and none at its ends, in proportion between. */
  lemma DeltaInProportion(delta: real, range: DeltaRange)
    requires range.low < range.high
    ensures range.low <= delta <= (range.low + range.high) / 2.0 ==>
              DeltaScore(delta, range) * (range.high - range.low) == 2.0 * (delta - range.low)
    ensures (range.low + range.high) / 2.0 <= delta <= range.high ==>
              DeltaScore(delta, range) * (range.high - range.low) == 2.0 * (range.high - delta)
    ensures delta <= range.low || delta >= range.high ==> DeltaScore(delta, range) == 0.0
  {
    var half := (range.high - range.low) / 2.0;
    var off := D.Abs(delta - (range.low + range.high) / 2.0);
    Quotient(off, half, 1.0);
    D.DivideTimes(off, half);
    D.Distribute(1.0, off / half, half);
  }

  /** A range without width scores every delta alike. */
  lemma NoRangeNoPreference(delta: real, range: DeltaRange)
    requires range.high <= range.low
    ensures DeltaScore(delta, range) == 1.0
  {
  }

  /** Weekly contracts aim at eight days and the others at twenty-eight, in proportion to the distance. */
  lemma DaysInProportion(dte: nat, policy: Policy)
    ensures dte <= policy.weeklyDteMax ==>
              8.0 * DteScore(dte, policy) == (if dte <= 8 then dte as real else D.Max(0.0, 16.0 - dte as real))
    ensures dte > policy.weeklyDteMax ==>
              28.0 * DteScore(dte, policy) == (if dte <= 28 then dte as real else D.Max(0.0, 56.0 - dte as real))
  {
  }

  /** A spread costs its part of the widest one allowed, and beyond that everything. */
  lemma SpreadInProportion(c: Snapshot, policy: Policy)
    requires policy.Valid() && Spread(c) > 0.0
    ensures Spread(c) <= policy.maxSpreadFraction ==>
              SpreadScore(c, policy) * policy.maxSpreadFraction == policy.maxSpreadFraction - Spread(c)
    ensures Spread(c) >= policy.maxSpreadFraction ==> SpreadScore(c, policy) == 0.0
  {
    var limit := policy.maxSpreadFraction;
    Quotient(Spread(c), limit, 1.0);
    D.DivideTimes(Spread(c), limit);
    D.Distribute(1.0, Spread(c) / limit, limit);
  }

  // ----------------------------------------------------------------------- weights

  function WithDerivatives(c: Snapshot, d: Derivatives): Snapshot { c.(derivatives := Some(d)) }

  /** Between two candidates that differ in one observation the base scores differ by that observation's part:
      seven fortieths for the open interest. */
  lemma OpenInterestWeighs(
    c: Snapshot, universe: seq<Snapshot>, policy: Policy, range: DeltaRange, d: Derivatives)
    requires policy.Valid() && c.derivatives.Some?
    requires d.daysToExpiry == c.derivatives.value.daysToExpiry && d.greeks == c.derivatives.value.greeks
    ensures var other, peak := WithDerivatives(c, d), Peak(OfOpenInterest, universe);
            40.0 * (BaseScore(other, universe, policy, range) - BaseScore(c, universe, policy, range))
              == 7.0 * (Share(OpenInterest(other), peak) - Share(OpenInterest(c), peak))
  {
  }

  /** As much for the volume. */
  lemma VolumeWeighs(
    c: Snapshot, universe: seq<Snapshot>, policy: Policy, range: DeltaRange, volume: Option<nat>)
    requires policy.Valid() && c.derivatives.Some?
    ensures var other, peak := c.(market := c.market.(volume := volume)), Peak(OfVolume, universe);
            40.0 * (BaseScore(other, universe, policy, range) - BaseScore(c, universe, policy, range))
              == 7.0 * (Share(volume.GetOr(0) as real, peak) - Share(Volume(c), peak))
  {
  }

  /** A quarter for the delta. */
  lemma DeltaWeighs(
    c: Snapshot, universe: seq<Snapshot>, policy: Policy, range: DeltaRange, d: Derivatives)
    requires policy.Valid() && c.derivatives.Some?
    requires d.daysToExpiry == c.derivatives.value.daysToExpiry && d.openInterest == c.derivatives.value.openInterest
    ensures var other := WithDerivatives(c, d);
            4.0 * (BaseScore(other, universe, policy, range) - BaseScore(c, universe, policy, range))
              == DeltaScore(AbsDelta(other).GetOr(0.0), range) - DeltaScore(AbsDelta(c).GetOr(0.0), range)
  {
  }

  /** A fifth for the days to expiry. */
  lemma DaysWeigh(
    c: Snapshot, universe: seq<Snapshot>, policy: Policy, range: DeltaRange, d: Derivatives)
    requires policy.Valid() && c.derivatives.Some?
    requires d.greeks == c.derivatives.value.greeks && d.openInterest == c.derivatives.value.openInterest
    ensures 5.0 * (BaseScore(WithDerivatives(c, d), universe, policy, range) - BaseScore(c, universe, policy, range))
              == DteScore(d.daysToExpiry, policy) - DteScore(c.derivatives.value.daysToExpiry, policy)
  {
  }

  /** And a fifth for the spread. */
  lemma SpreadWeighs(
    c: Snapshot, universe: seq<Snapshot>, policy: Policy, range: DeltaRange, bid: Option<real>, ask: Option<real>)
    requires policy.Valid() && c.derivatives.Some?
    ensures var other := c.(market := c.market.(bid := bid, ask := ask));
            5.0 * (BaseScore(other, universe, policy, range) - BaseScore(c, universe, policy, range))
              == SpreadScore(other, policy) - SpreadScore(c, policy)
  {
  }

  lemma BaseFrom(
    c: Snapshot, universe: seq<Snapshot>, policy: Policy, range: DeltaRange,
    interest: real, volume: real, delta: real, days: real, spread: real)
    requires policy.Valid() && c.derivatives.Some?
    requires interest == Share(OpenInterest(c), Peak(OfOpenInterest, universe))
    requires volume == Share(Volume(c), Peak(OfVolume, universe))
    requires delta == DeltaScore(AbsDelta(c).GetOr(0.0), range)
    requires days == DteScore(c.derivatives.value.daysToExpiry, policy) && spread == SpreadScore(c, policy)
    ensures BaseScore(c, universe, policy, range)
              == 0.175 * interest + 0.175 * volume + 0.25 * delta + 0.20 * days + 0.20 * spread
  {
  }

  /** A candidate with the most open interest and volume, a delta in the middle of a range, the days its tenor
      aims at and half the widest spread scores a tenth short of one. */
  lemma BestButForHalfTheSpread(c: Snapshot, universe: seq<Snapshot>, policy: Policy, range: DeltaRange)
    requires policy.Valid() && c.derivatives.Some? && range.low < range.high
    requires Peak(OfOpenInterest, universe) == OpenInterest(c) > 0.0 && Peak(OfVolume, universe) == Volume(c) > 0.0
    requires AbsDelta(c) == Some((range.low + range.high) / 2.0)
    requires var dte := c.derivatives.value.daysToExpiry; dte == if dte <= policy.weeklyDteMax then 8 else 28
    requires Spread(c) * 2.0 == policy.maxSpreadFraction
    ensures BaseScore(c, universe, policy, range) == 0.9
  {
    PartsOfTheBest(c, policy, range);
    ShareOf(OpenInterest(c), OpenInterest(c));
    ShareOf(Volume(c), Volume(c));
    BaseFrom(c, universe, policy, range, 1.0, 1.0, 1.0, 1.0, 0.5);
  }

  lemma PartsOfTheBest(c: Snapshot, policy: Policy, range: DeltaRange)
    requires policy.Valid() && c.derivatives.Some? && range.low < range.high
    requires AbsDelta(c) == Some((range.low + range.high) / 2.0)
    requires var dte := c.derivatives.value.daysToExpiry; dte == if dte <= policy.weeklyDteMax then 8 else 28
    requires Spread(c) * 2.0 == policy.maxSpreadFraction
    ensures DeltaScore(AbsDelta(c).value, range) == 1.0
    ensures DteScore(c.derivatives.value.daysToExpiry, policy) == 1.0
    ensures SpreadScore(c, policy) == 0.5
  {
    DeltaInProportion(AbsDelta(c).value, range);
    DaysInProportion(c.derivatives.value.daysToExpiry, policy);
    SpreadInProportion(c, policy);
    PartOf(DeltaScore(AbsDelta(c).value, range), 1.0, range.high - range.low);
    PartOf(SpreadScore(c, policy), 0.5, policy.maxSpreadFraction);
  }

  lemma PartOf(x: real, q: real, s: real)
    requires s > 0.0 && x * s == q * s
    ensures x == q
  {
    assert (x - q) * s == 0.0;
  }

  // ----------------------------------------------------------- the observed tilt

  lemma ClampBetween(x: real)
    ensures 0.0 <= x <= 1.0 ==> UnitClamp(x) == x
    ensures x <= 0.0 ==> UnitClamp(x) == 0.0
    ensures x >= 1.0 ==> UnitClamp(x) == 1.0
  {
  }

  lemma ClampedPart(a: real, s: real)
    requires s > 0.0
    ensures 0.0 <= a <= s ==> UnitClamp(a / s) * s == a
    ensures a >= s ==> UnitClamp(a / s) == 1.0
  {
    Quotient(a, s, 1.0);
    Quotient(a, s, 0.0);
    D.DivideTimes(a, s);
    ClampBetween(a / s);
  }

  /** The deepest displayed is the one no other exceeds. */
  lemma LargestIs(sizes: seq<nat>, largest: nat)
    requires largest in sizes && forall n :: n in sizes ==> n <= largest
    ensures Largest(sizes) == largest
  {
  }

  /** A long leg likes cheap volatility: full marks up to the money's, none from twice it on. A short leg
      likes a tenth more than the money's and loses as much on either side of that. */
  lemma VolatilityAgainstTheMoney(c: Snapshot, p1: Observed, iv: real, atm: real)
    requires ImpliedVolatility(c) == Some(iv) && p1.AtmIv(c.contract.expiry) == Some(atm) && atm > 0.0
    requires IvSurface in p1.present
    ensures var long, short := IvScore(c, p1, LongRole), IvScore(c, p1, ShortRole);
            && long.Some? && short.Some?
            && (iv <= atm ==> long.value == 1.0) && (iv >= 2.0 * atm ==> long.value == 0.0)
            && (atm <= iv <= 2.0 * atm ==> long.value * atm == 2.0 * atm - iv)
            && (0.1 * atm <= iv <= 1.1 * atm ==> short.value * atm == iv - 0.1 * atm)
            && (1.1 * atm <= iv <= 2.1 * atm ==> short.value * atm == 2.1 * atm - iv)
            && (iv <= 0.1 * atm || iv >= 2.1 * atm ==> short.value == 0.0)
  {
    var x := iv / atm;
    assert x * atm == iv by { D.DivideTimes(iv, atm); }
    RatioBounds(iv, atm, x);
    ClampBetween(2.0 - x);
    ClampBetween(1.0 - D.Abs(x - 1.10));
    Scaled(x, atm);
  }

  /** A long leg likes volatility below what was realized, a short leg above it. */
  lemma VolatilityAgainstTheRealized(c: Snapshot, p1: Observed, iv: real, rv: real)
    requires ImpliedVolatility(c) == Some(iv) && p1.realizedVolatility == Some(rv) && rv > 0.0
    requires RealizedVolatility in p1.present
    ensures var long, short := RvScore(c, p1, LongRole), RvScore(c, p1, ShortRole);
            && long.Some? && short.Some?
            && (iv <= rv ==> long.value == 1.0) && (iv >= 2.0 * rv ==> long.value == 0.0)
            && (rv <= iv <= 2.0 * rv ==> long.value * rv == 2.0 * rv - iv)
            && (iv <= 0.5 * rv ==> short.value == 0.0) && (iv >= 1.5 * rv ==> short.value == 1.0)
            && (0.5 * rv <= iv <= 1.5 * rv ==> short.value * rv == iv - 0.5 * rv)
  {
    var x := iv / rv;
    assert x * rv == iv by { D.DivideTimes(iv, rv); }
    RatioBounds(iv, rv, x);
    ClampBetween(2.0 - x);
    ClampBetween(x - 0.50);
    Scaled(x, rv);
  }

  lemma RatioBounds(a: real, s: real, x: real)
    requires s > 0.0 && x * s == a
    ensures a <= s <==> x <= 1.0
    ensures a <= 2.0 * s <==> x <= 2.0
    ensures a >= 2.0 * s <==> x >= 2.0
    ensures a >= s <==> x >= 1.0
    ensures a <= 0.1 * s <==> x <= 0.1
    ensures a >= 0.1 * s <==> x >= 0.1
    ensures a <= 1.1 * s <==> x <= 1.1
    ensures a >= 1.1 * s <==> x >= 1.1
    ensures a <= 2.1 * s <==> x <= 2.1
    ensures a >= 2.1 * s <==> x >= 2.1
    ensures a <= 0.5 * s <==> x <= 0.5
    ensures a >= 0.5 * s <==> x >= 0.5
    ensures a <= 1.5 * s <==> x <= 1.5
    ensures a >= 1.5 * s <==> x >= 1.5
  {
    Ordered(a, s, x, 1.0);
    Ordered(a, s, x, 2.0);
    Ordered(a, s, x, 0.1);
    Ordered(a, s, x, 1.1);
    Ordered(a, s, x, 2.1);
    Ordered(a, s, x, 0.5);
    Ordered(a, s, x, 1.5);
  }

  lemma Ordered(a: real, s: real, x: real, q: real)
    requires s > 0.0 && x * s == a
    ensures a <= q * s <==> x <= q
    ensures a >= q * s <==> x >= q
  {
    assert x <= q <==> x * s <= q * s;
    assert x >= q <==> x * s >= q * s;
  }

  lemma Scaled(x: real, s: real)
    ensures (2.0 - x) * s == 2.0 * s - x * s && (2.1 - x) * s == 2.1 * s - x * s
    ensures (x - 0.1) * s == x * s - 0.1 * s && (x - 0.5) * s == x * s - 0.5 * s
  {
  }

  function Mirrored(side: OptionType): OptionType { if side.Call? then Put else Call }

  /** Calls are favoured exactly under a positive skew, and puts under its negative. */
  lemma SkewFavoursItsOwnSide(c: Snapshot, p1: Observed, skew: real)
    requires IvSkew in p1.present && p1.ivSkew == Some(skew) && c.contract.optionType.Some?
    ensures SkewScore(c, p1).Some?
    ensures c.contract.optionType == Some(Call) ==> SkewScore(c, p1).value == if skew > 0.0 then 1.0 else 0.5
    ensures SkewScore(c.(contract := c.contract.(optionType := Some(Mirrored(c.contract.optionType.value)))),
                      p1.(ivSkew := Some(-skew))) == SkewScore(c, p1)
  {
  }

  /** The cheapest expiry has full marks, and another the cheapest one's part of its own volatility. */
  lemma CheapestExpiryIsFavoured(c: Snapshot, p1: Observed, atm: real, cheapest: real)
    requires TermStructure in p1.present && p1.AtmIv(c.contract.expiry) == Some(atm) && atm > 0.0
    requires cheapest in p1.termAtmIv && forall v :: v in p1.termAtmIv ==> cheapest <= v
    ensures TermScore(c, p1).Some?
    ensures atm <= cheapest ==> TermScore(c, p1).value == 1.0
    ensures 0.0 <= cheapest <= atm ==> TermScore(c, p1).value * atm == cheapest
  {
    assert Cheapest(p1.termAtmIv) == cheapest;
    ClampedPart(cheapest, atm);
  }

  /** Depth counts the thinner side of the book; a side without size is no depth at all. */
  lemma ThinnerSideCounts(c: Snapshot, bidSize: nat, askSize: nat)
    requires c.market.bidSize == Some(bidSize) && c.market.askSize == Some(askSize)
    ensures TopSize(c).GetOr(0) <= bidSize && TopSize(c).GetOr(0) <= askSize
    ensures TopSize(c).GetOr(0) == bidSize || TopSize(c).GetOr(0) == askSize
  {
  }

  /** It is scored against the deepest displayed, in proportion. */
  lemma DeepestIsFavoured(c: Snapshot, p1: Observed, size: nat, deepest: nat) returns (score: real)
    requires p1.Valid() && DepthField in p1.present && p1.depthSizes != []
    requires Largest(p1.depthSizes) == deepest && TopSize(c).GetOr(0) == size
    ensures DepthScore(c, p1) == Some(score) && PartOfLargest(score, size as real, deepest as real)
  {
    DepthAgainst(c, p1, size, deepest);
    score := PartScore(size as real, deepest as real);
  }

  lemma PartScore(size: real, largest: real) returns (score: real)
    requires size >= 0.0 && largest > 0.0
    ensures score == UnitClamp(size / largest) && PartOfLargest(score, size, largest)
  {
    score := UnitClamp(size / largest);
    ClampedPart(size, largest);
  }

  /** Full marks from the largest on, and its own part of that below. */
  predicate PartOfLargest(score: real, size: real, largest: real) {
    if size >= largest then score == 1.0 else score * largest == size
  }

  lemma DepthAgainst(c: Snapshot, p1: Observed, size: nat, deepest: nat)
    requires p1.Valid() && DepthField in p1.present && p1.depthSizes != []
    requires Largest(p1.depthSizes) == deepest && TopSize(c).GetOr(0) == size
    ensures deepest > 0 && DepthScore(c, p1) == Some(UnitClamp(size as real / deepest as real))
  {
    if TopSize(c).None? { ClampedPart(0.0, deepest as real); }
  }

  /** Observations that are missing yield no score at all, except a book whose size was not displayed where
      others' was, which yields the lowest. */
  lemma MissingIsNotFilled(c: Snapshot, p1: Observed, role: Role)
    requires p1.Valid()
    ensures IvScore(c, p1, role).Some? <==>
              && IvSurface in p1.present && ImpliedVolatility(c).Some?
              && p1.AtmIv(c.contract.expiry).Some? && p1.AtmIv(c.contract.expiry).value > 0.0
    ensures SkewScore(c, p1).Some? <==> IvSkew in p1.present && p1.ivSkew.Some? && c.contract.optionType.Some?
    ensures TermScore(c, p1).Some? <==>
              && TermStructure in p1.present && p1.termAtmIv != []
              && p1.AtmIv(c.contract.expiry).Some? && p1.AtmIv(c.contract.expiry).value > 0.0
    ensures RvScore(c, p1, role).Some? <==>
              && RealizedVolatility in p1.present && ImpliedVolatility(c).Some?
              && p1.realizedVolatility.Some? && p1.realizedVolatility.value > 0.0
    ensures DepthScore(c, p1).Some? <==> DepthField in p1.present && p1.depthSizes != []
    ensures DepthScore(c, p1).Some? && (c.market.bidSize.None? || c.market.askSize.None?) ==>
              DepthScore(c, p1).value == 0.0
  {
  }

  function HoldingGreeks(c: Snapshot, g: Greeks): Snapshot
    requires c.derivatives.Some?
  {
    WithDerivatives(c, c.derivatives.value.(greeks := Some(g)))
  }

  lemma MeanOfOne(a: real)
    ensures Mean([a]) == a
  {
    assert [a][..0] == [];
    assert D.Sum([a]) == D.Sum([]) + a;
    D.DivideTimes(a, 1.0);
  }

  lemma MeanOfTwo(a: real, b: real)
    ensures Mean([a, b]) == (a + b) / 2.0
  {
    assert [a, b][..1] == [a];
    assert [a][..0] == [];
    assert D.Sum([a, b]) == D.Sum([a]) + b;
  }

  /** Decay counts against a candidate, in proportion to the largest. */
  lemma DecayCountsAgainst(c: Snapshot, g: Greeks, theta: real, thetaPeak: real, vegaPeak: real)
    requires c.derivatives.Some? && g.theta == Some(theta) && g.vega.None?
    requires D.Abs(theta) <= thetaPeak && thetaPeak > 0.0
    ensures var score := GreeksAgainst(HoldingGreeks(c, g), thetaPeak, vegaPeak);
            score.Some? && score.value * thetaPeak == thetaPeak - D.Abs(theta)
  {
    ThetaAlone(c, g, thetaPeak, vegaPeak);
    var part := D.Abs(theta) / thetaPeak;
    Quotient(D.Abs(theta), thetaPeak, 1.0);
    Quotient(D.Abs(theta), thetaPeak, 0.0);
    D.DivideTimes(D.Abs(theta), thetaPeak);
    D.Distribute(1.0, part, thetaPeak);
    ClampBetween(1.0 - part);
  }

  /** Exposure to volatility counts for it, in proportion to the largest. */
  lemma VegaCountsFor(c: Snapshot, g: Greeks, vega: real, thetaPeak: real, vegaPeak: real)
    requires c.derivatives.Some? && g.vega == Some(vega) && g.theta.None?
    requires D.Abs(vega) <= vegaPeak && vegaPeak > 0.0
    ensures var score := GreeksAgainst(HoldingGreeks(c, g), thetaPeak, vegaPeak);
            score.Some? && score.value * vegaPeak == D.Abs(vega)
  {
    VegaAlone(c, g, thetaPeak, vegaPeak);
    ClampedPart(D.Abs(vega), vegaPeak);
  }

  /** A candidate with both has the mean of the two. */
  lemma BothGreeksCountAlike(c: Snapshot, g: Greeks, thetaPeak: real, vegaPeak: real)
    requires c.derivatives.Some? && g.theta.Some? && g.vega.Some? && thetaPeak > 0.0 && vegaPeak > 0.0
    ensures var both := GreeksAgainst(HoldingGreeks(c, g), thetaPeak, vegaPeak);
            var decay := GreeksAgainst(HoldingGreeks(c, g.(vega := None)), thetaPeak, vegaPeak);
            var exposure := GreeksAgainst(HoldingGreeks(c, g.(theta := None)), thetaPeak, vegaPeak);
            both.Some? && decay.Some? && exposure.Some? && 2.0 * both.value == decay.value + exposure.value
  {
    ThetaAlone(c, g.(vega := None), thetaPeak, vegaPeak);
    VegaAlone(c, g.(theta := None), thetaPeak, vegaPeak);
    ThetaAndVega(c, g, thetaPeak, vegaPeak);
  }

  lemma ThetaAlone(c: Snapshot, g: Greeks, thetaPeak: real, vegaPeak: real)
    requires c.derivatives.Some? && g.theta.Some? && g.vega.None? && thetaPeak > 0.0
    ensures GreeksAgainst(HoldingGreeks(c, g), thetaPeak, vegaPeak)
              == Some(UnitClamp(1.0 - D.Abs(g.theta.value) / thetaPeak))
  {
    var a := UnitClamp(1.0 - D.Abs(g.theta.value) / thetaPeak);
    MeanOfOne(a);
    assert [a] + [] == [a];
  }

  lemma VegaAlone(c: Snapshot, g: Greeks, thetaPeak: real, vegaPeak: real)
    requires c.derivatives.Some? && g.theta.None? && g.vega.Some? && vegaPeak > 0.0
    ensures GreeksAgainst(HoldingGreeks(c, g), thetaPeak, vegaPeak)
              == Some(UnitClamp(D.Abs(g.vega.value) / vegaPeak))
  {
    var b := UnitClamp(D.Abs(g.vega.value) / vegaPeak);
    MeanOfOne(b);
    assert [] + [b] == [b];
  }

  lemma ThetaAndVega(c: Snapshot, g: Greeks, thetaPeak: real, vegaPeak: real)
    requires c.derivatives.Some? && g.theta.Some? && g.vega.Some? && thetaPeak > 0.0 && vegaPeak > 0.0
    ensures GreeksAgainst(HoldingGreeks(c, g), thetaPeak, vegaPeak)
              == Some((UnitClamp(1.0 - D.Abs(g.theta.value) / thetaPeak)
                         + UnitClamp(D.Abs(g.vega.value) / vegaPeak)) / 2.0)
  {
    var a, b := UnitClamp(1.0 - D.Abs(g.theta.value) / thetaPeak), UnitClamp(D.Abs(g.vega.value) / vegaPeak);
    MeanOfTwo(a, b);
    assert [a] + [b] == [a, b];
  }

  /** The candidate of a universe that decays most has the lowest mark for it. */
  lemma MostDecayScoresLowest(c: Snapshot, universe: seq<Snapshot>, p1: Observed, g: Greeks, theta: real)
    requires GreeksField in p1.present && c.derivatives.Some? && c.derivatives.value.greeks == Some(g)
    requires c in universe && g.vega.None? && g.theta == Some(theta) && theta != 0.0
    requires forall x | x in universe :: D.Abs(Theta(x).GetOr(0.0)) <= D.Abs(theta)
    ensures GreeksScore(c, universe, p1) == Some(0.0)
  {
    assert HoldingGreeks(c, g) == c;
    PeakIsLargest(OfTheta, c, universe);
    DecayCountsAgainst(c, g, theta, D.Abs(theta), Peak(OfVega, universe));
    PartOf(GreeksScore(c, universe, p1).value, 0.0, D.Abs(theta));
  }

  lemma MostVega(c: Snapshot, g: Greeks, vega: real, thetaPeak: real)
    requires c.derivatives.Some? && g.theta.None? && g.vega == Some(vega) && vega != 0.0
    ensures GreeksAgainst(HoldingGreeks(c, g), thetaPeak, D.Abs(vega)) == Some(1.0)
  {
    VegaCountsFor(c, g, vega, thetaPeak, D.Abs(vega));
    PartOf(GreeksAgainst(HoldingGreeks(c, g), thetaPeak, D.Abs(vega)).value, 1.0, D.Abs(vega));
  }

  /** And the one most exposed to volatility has the highest mark for that. */
  lemma MostVegaScoresHighest(c: Snapshot, universe: seq<Snapshot>, p1: Observed, g: Greeks, vega: real)
    requires GreeksField in p1.present && c.derivatives.Some? && c.derivatives.value.greeks == Some(g)
    requires c in universe && g.theta.None? && g.vega == Some(vega) && vega != 0.0
    requires forall x | x in universe :: D.Abs(Vega(x).GetOr(0.0)) <= D.Abs(vega)
    ensures GreeksScore(c, universe, p1) == Some(1.0)
  {
    assert HoldingGreeks(c, g) == c;
    PeakIsLargest(OfVega, c, universe);
    MostVega(c, g, vega, Peak(OfTheta, universe));
  }

  // ------------------------------------------------------------------------- the blend

  lemma {:induction false} ObservableAppend(a: seq<Option<real>>, b: seq<Option<real>>)
    ensures Observable(a + b) == Observable(a) + Observable(b)
  {
    if a == [] {
      assert a + b == b;
    } else {
      assert (a + b)[1..] == a[1..] + b;
      ObservableAppend(a[1..], b);
      Reassociate(if a[0].Some? then [a[0].value] else [], Observable(a[1..]), Observable(b));
    }
  }

  lemma Reassociate(x: seq<real>, y: seq<real>, z: seq<real>)
    ensures x + (y + z) == (x + y) + z
  {
  }

  /** A missing series is left out of the mean, wherever it stands. */
  lemma MissingSeriesAreLeftOut(before: seq<Option<real>>, after: seq<Option<real>>, value: real)
    ensures Observable(before + ([None] + after)) == Observable(before + after)
    ensures Observable(before + ([Some(value)] + after)) == Observable(before) + ([value] + Observable(after))
  {
    ObservableAppend(before, after);
    ObservableAppend(before, [None] + after);
    ObservableAppend(before, [Some(value)] + after);
    assert ([None] + after)[1..] == after;
    assert ([Some(value)] + after)[1..] == after;
  }

  /** A tilt exists as soon as one of the six series was observed. */
  lemma AnySeriesTilts(c: Snapshot, universe: seq<Snapshot>, p1: Observed, role: Role)
    requires p1.Valid()
    ensures P1Score(c, universe, Some(p1), role).Some? <==>
              || IvScore(c, p1, role).Some? || SkewScore(c, p1).Some? || TermScore(c, p1).Some?
              || RvScore(c, p1, role).Some? || DepthScore(c, p1).Some? || GreeksScore(c, universe, p1).Some?
    ensures P1Score(c, universe, None, role).None?
  {
    var iv, skew, term := IvScore(c, p1, role), SkewScore(c, p1), TermScore(c, p1);
    var rv, depth, greeks := RvScore(c, p1, role), DepthScore(c, p1), GreeksScore(c, universe, p1);
    var parts := P1Parts(c, universe, p1, role);
    NothingObserved(parts);
    assert parts[0] == iv && parts[1] == skew && parts[2] == term;
    assert parts[3] == rv && parts[4] == depth && parts[5] == greeks && |parts| == 6;
  }

  lemma {:induction false} NothingObserved(parts: seq<Option<real>>)
    ensures Observable(parts) == [] <==> forall i | 0 <= i < |parts| :: parts[i].None?
  {
    if parts != [] {
      NothingObserved(parts[1..]);
      assert parts == [parts[0]] + parts[1..];
    }
  }

  /** The observed tilt moves a fifth of the score: alone the base is only rounded, full marks lift a base of
      nothing to a fifth, and none bring a full base down to four fifths. */
  lemma TiltIsAFifth(base: real, tilt: real)
    ensures Blend(base, None) == Q6(base) && Blend(base, Some(base)) == Q6(base)
    ensures Blend(0.0, Some(tilt)) == Q6(tilt / 5.0)
    ensures Blend(base, Some(0.0)) == Q6(4.0 * base / 5.0)
    ensures -1.0 <= (Blend(base, None) - base) * 2_000_000.0 <= 1.0
  {
    D.QuantizeError(base, 1_000_000);
  }
}
