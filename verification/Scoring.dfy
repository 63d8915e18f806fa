/** Candidate gates and scores (src/trading/identification/binders.py:1591-1988, 2092-2151).
    Every observable is a number in [0, 1], and so is every mean and blend of them; the universe
    a candidate is ranked in matters through its members only. Spreads and depths come from the
    book, greeks and volatilities from the derivative fields, which may be missing. */
module Scoring {
  import opened Wrappers
  import opened Contracts
  import D = Decimals

  // ------------------------------------------------------------------- gates

  function SpreadFraction(c: Snapshot): Option<real> {
    match (c.market.bid, c.market.ask)
    case (Some(bid), Some(ask)) =>
      var mid := (bid + ask) / 2.0;
      if mid <= 0.0 then None else Some((ask - bid) / mid)
    case _ => None
  }

  function AbsDelta(c: Snapshot): Option<real> {
    if c.derivatives.None? || c.derivatives.value.greeks.None? then None
    else match c.derivatives.value.greeks.value.delta
         case None => None
         case Some(delta) => Some(D.Abs(delta))
  }

  /** The first gate that refuses the candidate, with the floors of one selection pass. */
  function GateReason(c: Snapshot, minOpenInterest: nat, maxSpreadFraction: real): Option<Reason> {
    if !c.contract.isOption || c.derivatives.None? then Some(InstrumentUnknown)
    else if !c.permitsNewExposure then Some(DataInvalid)
    else if c.lotSize.GetOr(0.0) <= 0.0 then Some(InstrumentUnknown)
    else if c.topOfBookObserved.GetOr(0.0) != 1.0 then Some(PriceUnavailable)
    else
      var derivatives := c.derivatives.value;
      if derivatives.openInterest.None? || derivatives.openInterest.value < minOpenInterest then
        Some(DepthInsufficient)
      else if derivatives.greeks.None?
           || !derivatives.greeks.value.converged
           || derivatives.greeks.value.delta.None?
           || derivatives.greeks.value.impliedVolatility.None? then
        Some(DataGap)
      else
        match SpreadFraction(c)
        case None => Some(PriceUnavailable)
        case Some(spread) => if spread > maxSpreadFraction then Some(SpreadTooWide) else None
  }

  function CommonReason(c: Snapshot, policy: Policy): Option<Reason> {
    GateReason(c, policy.minOpenInterest, policy.maxSpreadFraction)
  }

  predicate DteOk(c: Snapshot, policy: Policy) {
    && c.derivatives.Some?
    && var dte := c.derivatives.value.daysToExpiry;
       || policy.weeklyDteMin <= dte <= policy.weeklyDteMax
       || policy.monthlyDteMin <= dte <= policy.monthlyDteMax
  }

  predicate Usable(c: Snapshot, policy: Policy) {
    CommonReason(c, policy).None? && DteOk(c, policy)
  }

  predicate AbsDeltaInRange(c: Snapshot, low: real, high: real) {
    AbsDelta(c).Some? && low <= AbsDelta(c).value <= high
  }

  /** The reason reported when nothing binds: the first refused candidate's. */
  function DominantReason(candidates: seq<Snapshot>, policy: Policy): Reason {
    if candidates == [] then DataGap else FirstReason(candidates, policy)
  }

  function FirstReason(candidates: seq<Snapshot>, policy: Policy): Reason {
    if candidates == [] then InstrumentUnknown
    else match CommonReason(candidates[0], policy)
         case Some(reason) => reason
         case None => FirstReason(candidates[1..], policy)
  }

  // ------------------------------------------------------------ universe peaks

  function OpenInterest(c: Snapshot): (v: real)
    ensures v >= 0.0
  {
    if c.derivatives.Some? && c.derivatives.value.openInterest.Some?
    then c.derivatives.value.openInterest.value as real else 0.0
  }

  function Volume(c: Snapshot): (v: real)
    ensures v >= 0.0
  {
    c.market.volume.GetOr(0) as real
  }

  function Theta(c: Snapshot): (v: Option<real>) {
    if c.derivatives.Some? && c.derivatives.value.greeks.Some?
    then c.derivatives.value.greeks.value.theta else None
  }

  function Vega(c: Snapshot): (v: Option<real>) {
    if c.derivatives.Some? && c.derivatives.value.greeks.Some?
    then c.derivatives.value.greeks.value.vega else None
  }

  function ImpliedVolatility(c: Snapshot): Option<real> {
    if c.derivatives.Some? && c.derivatives.value.greeks.Some?
    then c.derivatives.value.greeks.value.impliedVolatility else None
  }

  datatype Measure = OfOpenInterest | OfVolume | OfTheta | OfVega

  function Reading(m: Measure, c: Snapshot): (v: real)
    ensures v >= 0.0
  {
    match m
    case OfOpenInterest => OpenInterest(c)
    case OfVolume => Volume(c)
    case OfTheta => D.Abs(Theta(c).GetOr(0.0))
    case OfVega => D.Abs(Vega(c).GetOr(0.0))
  }

  /** `max(..., default=0)` of a non-negative reading. */
  function Peak(m: Measure, universe: seq<Snapshot>): (peak: real)
    ensures peak >= 0.0
    ensures forall c | c in universe :: Reading(m, c) <= peak
    ensures peak == 0.0 || exists c :: c in universe && Reading(m, c) == peak
  {
    if universe == [] then 0.0
    else
      var rest := Peak(m, universe[1..]);
      assert universe == [universe[0]] + universe[1..];
      if Reading(m, universe[0]) > rest
      then assert universe[0] in universe; Reading(m, universe[0])
      else rest
  }

  lemma PeakSameMembers(m: Measure, u: seq<Snapshot>, v: seq<Snapshot>)
    requires forall c :: c in u <==> c in v
    ensures Peak(m, u) == Peak(m, v)
  {
  }

  // ------------------------------------------------------------------- scores

  datatype Role = LongRole | ShortRole

  datatype DeltaRange = DeltaRange(low: real, high: real)

  datatype Field = IvSurface | IvSkew | TermStructure | RealizedVolatility | DepthField | GreeksField

  /** Observed ranking features over one candidate universe. */
  datatype Observed = Observed(
    present: set<Field>,
    ivSkew: Option<real>,
    termAtmIv: seq<real>,
    atmIv: map<int, real>,
    realizedVolatility: Option<real>,
    depthSizes: seq<nat>)
  {
    function AtmIv(expiry: Option<int>): Option<real> {
      if expiry.Some? && expiry.value in atmIv then Some(atmIv[expiry.value]) else None
    }

    /** Only positive displayed sizes are observed. */
    predicate Valid() {
      forall i | 0 <= i < |depthSizes| :: depthSizes[i] > 0
    }
  }

  /** `min(1, value / maximum)`, zero when there is nothing to compare with. */
  function Share(value: real, maximum: real): (r: real)
    requires value >= 0.0
    ensures 0.0 <= r <= 1.0
  {
    if maximum <= 0.0 then 0.0
    else
      D.Min(1.0, value / maximum)
  }

  function DeltaScore(delta: real, range: DeltaRange): (r: real)
    ensures 0.0 <= r <= 1.0
  {
    var middle := (range.low + range.high) / 2.0;
    var half := (range.high - range.low) / 2.0;
    if half <= 0.0 then 1.0
    else
      D.Max(0.0, 1.0 - D.Abs(delta - middle) / half)
  }

  lemma DivideOrder(a: real, b: real, half: real)
    requires half > 0.0
    ensures a < b <==> a / half < b / half
    ensures a < half <==> a / half < 1.0
  {
    D.DivideTimes(a, half);
    D.DivideTimes(b, half);
    var x, y := a / half, b / half;
    assert x * half == a && y * half == b;
    assert x < y <==> x * half < y * half;
    assert x < 1.0 <==> x * half < 1.0 * half;
  }

  /** Of two deltas the one nearer the middle of the range scores higher, wherever it lies inside a range
      that has an inside; outside all score alike, and so do all in a range without width. */
  lemma NearerTheMiddleScoresHigher(delta: real, other: real, range: DeltaRange)
    ensures DeltaScore(delta, range) > DeltaScore(other, range) <==>
              && range.low < delta < range.high
              && D.Abs(delta - (range.low + range.high) / 2.0) < D.Abs(other - (range.low + range.high) / 2.0)
  {
    var middle, half := (range.low + range.high) / 2.0, (range.high - range.low) / 2.0;
    if half > 0.0 {
      DivideOrder(D.Abs(delta - middle), D.Abs(other - middle), half);
      assert range.low < delta < range.high <==> D.Abs(delta - middle) < half;
    }
  }

  function DteScore(dte: nat, policy: Policy): (r: real)
    ensures 0.0 <= r <= 1.0
  {
    var target := if dte <= policy.weeklyDteMax then 8.0 else 28.0;
    D.Max(0.0, 1.0 - D.Abs(dte as real - target) / target)
  }

  /** A missing spread reads as zero. */
  function Spread(c: Snapshot): real { SpreadFraction(c).GetOr(0.0) }

  /** A spread of exactly zero is falsy in the source and scores as the widest one. */
  function SpreadScore(c: Snapshot, policy: Policy): (r: real)
    requires policy.Valid()
    ensures 0.0 <= r
    ensures c.market.Valid() ==> r <= 1.0
  {
    var spread := if Spread(c) == 0.0 then policy.maxSpreadFraction else Spread(c);
    assert c.market.Valid() ==> spread >= 0.0;
    D.Max(0.0, 1.0 - spread / policy.maxSpreadFraction)
  }

  lemma FractionBelowOne(a: real, s: real)
    requires a < s && s > 0.0
    ensures a / s < 1.0
  {
    D.DivideTimes(a, s);
    var x := a / s;
    assert x * s == a;
  }

  /** A narrower spread scores at least as high as a wider one, except exactly when it is zero while
      the wider one is positive and within the limit. */
  lemma NarrowerSpreadScoresHigher(a: Snapshot, b: Snapshot, policy: Policy)
    requires policy.Valid() && 0.0 <= Spread(a) <= Spread(b)
    ensures SpreadScore(a, policy) >= SpreadScore(b, policy) <==>
              Spread(a) > 0.0 || Spread(b) == 0.0 || Spread(b) >= policy.maxSpreadFraction
  {
    var limit := policy.maxSpreadFraction;
    D.DivideTimes(Spread(b), limit);
    D.DivideMonotone(Spread(a), Spread(b), limit);
    assert limit / limit == 1.0;
    if Spread(b) >= limit {
      D.DivideMonotone(limit, Spread(b), limit);
    } else if Spread(a) == 0.0 < Spread(b) {
      FractionBelowOne(Spread(b), limit);
    }
  }

  /** A book with bid and ask at one price has the narrowest spread and the lowest score. */
  lemma LockedBookScoresZero(c: Snapshot, policy: Policy)
    requires policy.Valid() && c.market.bid.Some? && c.market.bid == c.market.ask
    ensures Spread(c) == 0.0 && SpreadScore(c, policy) == 0.0
  {
    assert policy.maxSpreadFraction / policy.maxSpreadFraction == 1.0;
  }

  function BaseScore(c: Snapshot, universe: seq<Snapshot>, policy: Policy, range: DeltaRange)
    : (score: real)
    requires policy.Valid() && c.derivatives.Some?
    ensures score >= 0.0 && (c.market.Valid() ==> score <= 1.0)
  {
    var liquidity := (Share(OpenInterest(c), Peak(OfOpenInterest, universe))
                      + Share(Volume(c), Peak(OfVolume, universe))) / 2.0;
    0.35 * liquidity
    + 0.25 * DeltaScore(AbsDelta(c).GetOr(0.0), range)
    + 0.20 * DteScore(c.derivatives.value.daysToExpiry, policy)
    + 0.20 * SpreadScore(c, policy)
  }

  function UnitClamp(x: real): (r: real)
    ensures 0.0 <= r <= 1.0
  {
    D.Clamp(x, 0.0, 1.0)
  }

  function IvScore(c: Snapshot, p1: Observed, role: Role): (r: Option<real>)
    ensures r.Some? ==> 0.0 <= r.value <= 1.0
  {
    if IvSurface !in p1.present then None
    else
      var iv, atm := ImpliedVolatility(c), p1.AtmIv(c.contract.expiry);
      if iv.None? || atm.None? || atm.value <= 0.0 then None
      else
        var relative := iv.value / atm.value;
        Some(UnitClamp(if role.ShortRole? then 1.0 - D.Abs(relative - 1.10) else 2.0 - relative))
  }

  function SkewScore(c: Snapshot, p1: Observed): (r: Option<real>)
    ensures r.Some? ==> 0.0 <= r.value <= 1.0
  {
    if IvSkew !in p1.present || p1.ivSkew.None? then None
    else match c.contract.optionType
         case Some(Call) => Some(if p1.ivSkew.value > 0.0 then 1.0 else 0.5)
         case Some(Put) => Some(if p1.ivSkew.value < 0.0 then 1.0 else 0.5)
         case None => None
  }

  function Cheapest(values: seq<real>): (m: real)
    requires values != []
    ensures m in values && forall i | 0 <= i < |values| :: m <= values[i]
  {
    if |values| == 1 then values[0]
    else
      var n, rest := |values| - 1, Cheapest(values[..|values| - 1]);
      if values[n] < rest then values[n] else rest
  }

  function TermScore(c: Snapshot, p1: Observed): (r: Option<real>)
    ensures r.Some? ==> 0.0 <= r.value <= 1.0
  {
    if TermStructure !in p1.present || p1.termAtmIv == [] then None
    else
      var atm := p1.AtmIv(c.contract.expiry);
      if atm.None? || atm.value <= 0.0 then None
      else Some(UnitClamp(Cheapest(p1.termAtmIv) / atm.value))
  }

  function RvScore(c: Snapshot, p1: Observed, role: Role): (r: Option<real>)
    ensures r.Some? ==> 0.0 <= r.value <= 1.0
  {
    if RealizedVolatility !in p1.present then None
    else
      var iv, rv := ImpliedVolatility(c), p1.realizedVolatility;
      if iv.None? || rv.None? || rv.value <= 0.0 then None
      else
        var relative := iv.value / rv.value;
        Some(UnitClamp(if role.ShortRole? then relative - 0.50 else 2.0 - relative))
  }

  function TopSize(c: Snapshot): Option<nat> {
    if c.market.bidSize.None? || c.market.askSize.None? then None
    else
      var displayed := if c.market.askSize.value < c.market.bidSize.value
                       then c.market.askSize.value else c.market.bidSize.value;
      if displayed > 0 then Some(displayed) else None
  }

  function Largest(sizes: seq<nat>): (m: nat)
    requires sizes != []
    ensures m in sizes && forall i | 0 <= i < |sizes| :: sizes[i] <= m
  {
    if |sizes| == 1 then sizes[0]
    else
      var n, rest := |sizes| - 1, Largest(sizes[..|sizes| - 1]);
      if sizes[n] > rest then sizes[n] else rest
  }

  function DepthScore(c: Snapshot, p1: Observed): (r: Option<real>)
    requires p1.Valid()
    ensures r.Some? ==> 0.0 <= r.value <= 1.0
  {
    if DepthField !in p1.present || p1.depthSizes == [] then None
    else match TopSize(c)
         case None => Some(0.0)
         case Some(size) => Some(UnitClamp(size as real / Largest(p1.depthSizes) as real))
  }

  function Mean(parts: seq<real>): real
    requires parts != []
  {
    D.Sum(parts) / |parts| as real
  }

  function GreeksScore(c: Snapshot, universe: seq<Snapshot>, p1: Observed): (r: Option<real>)
    ensures r.Some? ==> 0.0 <= r.value <= 1.0
  {
    if GreeksField !in p1.present || c.derivatives.None? || c.derivatives.value.greeks.None? then None
    else GreeksAgainst(c, Peak(OfTheta, universe), Peak(OfVega, universe))
  }

  /** The greeks of a candidate against the largest of its universe. */
  function GreeksAgainst(c: Snapshot, thetaPeak: real, vegaPeak: real): (r: Option<real>)
    ensures r.Some? ==> 0.0 <= r.value <= 1.0
  {
    var theta := if Theta(c).Some? && thetaPeak > 0.0
                 then [UnitClamp(1.0 - D.Abs(Theta(c).value) / thetaPeak)] else [];
    var vega := if Vega(c).Some? && vegaPeak > 0.0
                then [UnitClamp(D.Abs(Vega(c).value) / vegaPeak)] else [];
    if theta + vega == [] then None
    else MeanInUnit(theta + vega); Some(Mean(theta + vega))
  }

  /** Missing series are skipped, never filled. */
  function Observable(parts: seq<Option<real>>): seq<real> {
    if parts == [] then []
    else (if parts[0].Some? then [parts[0].value] else []) + Observable(parts[1..])
  }

  function P1Parts(c: Snapshot, universe: seq<Snapshot>, p1: Observed, role: Role)
    : (parts: seq<Option<real>>)
    requires p1.Valid()
    ensures forall i | 0 <= i < |parts| && parts[i].Some? :: 0.0 <= parts[i].value <= 1.0
  {
    [IvScore(c, p1, role), SkewScore(c, p1), TermScore(c, p1), RvScore(c, p1, role),
     DepthScore(c, p1), GreeksScore(c, universe, p1)]
  }

  function P1Score(c: Snapshot, universe: seq<Snapshot>, p1: Option<Observed>, role: Role)
    : Option<real>
    requires p1.Some? ==> p1.value.Valid()
  {
    if p1.None? then None
    else
      var parts := Observable(P1Parts(c, universe, p1.value, role));
      if parts == [] then None else Some(Mean(parts))
  }

  function Q6(x: real): real { D.Quantize(x, 1_000_000) }

  function Blend(base: real, extra: Option<real>): real {
    if extra.None? then Q6(base) else Q6(0.80 * base + 0.20 * extra.value)
  }

  function CandidateScore(
    c: Snapshot, universe: seq<Snapshot>, policy: Policy, range: DeltaRange,
    p1: Option<Observed>, role: Role): real
    requires policy.Valid() && (p1.Some? ==> p1.value.Valid())
  {
    if c.derivatives.None? then 0.0
    else Blend(BaseScore(c, universe, policy, range), P1Score(c, universe, p1, role))
  }

  // ------------------------------------------------------- facts about scores

  ghost predicate InUnit(parts: seq<real>) {
    forall i | 0 <= i < |parts| :: 0.0 <= parts[i] <= 1.0
  }

  lemma {:induction false} SumInUnit(parts: seq<real>)
    requires InUnit(parts)
    ensures 0.0 <= D.Sum(parts) <= |parts| as real
  {
    if parts != [] {
      var n := |parts| - 1;
      assert InUnit(parts[..n]);
      SumInUnit(parts[..n]);
    }
  }

  lemma MeanInUnit(parts: seq<real>)
    requires parts != [] && InUnit(parts)
    ensures 0.0 <= Mean(parts) <= 1.0
  {
    SumInUnit(parts);
    D.DivideMonotone(0.0, D.Sum(parts), |parts| as real);
    D.DivideMonotone(D.Sum(parts), |parts| as real, |parts| as real);
    assert |parts| as real / |parts| as real == 1.0;
  }

  lemma {:induction false} ObservableInUnit(parts: seq<Option<real>>)
    requires forall i | 0 <= i < |parts| && parts[i].Some? :: 0.0 <= parts[i].value <= 1.0
    ensures InUnit(Observable(parts))
  {
    if parts != [] { ObservableInUnit(parts[1..]); }
  }

  lemma P1ScoreInUnit(c: Snapshot, universe: seq<Snapshot>, p1: Option<Observed>, role: Role)
    requires p1.Some? ==> p1.value.Valid()
    ensures P1Score(c, universe, p1, role).Some? ==>
              0.0 <= P1Score(c, universe, p1, role).value <= 1.0
  {
    if p1.Some? {
      var parts := Observable(P1Parts(c, universe, p1.value, role));
      ObservableInUnit(P1Parts(c, universe, p1.value, role));
      if parts != [] { MeanInUnit(parts); }
    }
  }

  /** Every score is a fraction of one, whatever the universe and the observed series. */
  lemma CandidateScoreInUnit(
    c: Snapshot, universe: seq<Snapshot>, policy: Policy, range: DeltaRange,
    p1: Option<Observed>, role: Role)
    requires policy.Valid() && c.market.Valid() && (p1.Some? ==> p1.value.Valid())
    ensures 0.0 <= CandidateScore(c, universe, policy, range, p1, role) <= 1.0
  {
    if c.derivatives.Some? {
      var base := BaseScore(c, universe, policy, range);
      P1ScoreInUnit(c, universe, p1, role);
      BlendInUnit(base, P1Score(c, universe, p1, role));
    }
  }

  lemma BlendInUnit(base: real, extra: Option<real>)
    requires 0.0 <= base <= 1.0 && (extra.Some? ==> 0.0 <= extra.value <= 1.0)
    ensures 0.0 <= Blend(base, extra) <= 1.0
  {
    D.QuantizeBounds(base, 0, 1, 1_000_000);
    if extra.Some? { D.QuantizeBounds(0.80 * base + 0.20 * extra.value, 0, 1, 1_000_000); }
  }

  lemma GreeksScoreSameMembers(c: Snapshot, u: seq<Snapshot>, v: seq<Snapshot>, p1: Observed)
    requires forall x :: x in u <==> x in v
    ensures GreeksScore(c, u, p1) == GreeksScore(c, v, p1)
  {
    PeakSameMembers(OfTheta, u, v);
    PeakSameMembers(OfVega, u, v);
  }

  lemma P1ScoreSameMembers(
    c: Snapshot, u: seq<Snapshot>, v: seq<Snapshot>, p1: Option<Observed>, role: Role)
    requires p1.Some? ==> p1.value.Valid()
    requires forall x :: x in u <==> x in v
    ensures P1Score(c, u, p1, role) == P1Score(c, v, p1, role)
  {
    if p1.Some? {
      GreeksScoreSameMembers(c, u, v, p1.value);
      assert P1Parts(c, u, p1.value, role) == P1Parts(c, v, p1.value, role);
    }
  }

  lemma BaseScoreSameMembers(
    c: Snapshot, u: seq<Snapshot>, v: seq<Snapshot>, policy: Policy, range: DeltaRange)
    requires policy.Valid() && c.derivatives.Some?
    requires forall x :: x in u <==> x in v
    ensures BaseScore(c, u, policy, range) == BaseScore(c, v, policy, range)
  {
    PeakSameMembers(OfOpenInterest, u, v);
    PeakSameMembers(OfVolume, u, v);
  }

  /** The universe matters only through its members, not through their order. */
  lemma CandidateScoreSameMembers(
    c: Snapshot, u: seq<Snapshot>, v: seq<Snapshot>, policy: Policy, range: DeltaRange,
    p1: Option<Observed>, role: Role)
    requires policy.Valid() && (p1.Some? ==> p1.value.Valid())
    requires forall x :: x in u <==> x in v
    ensures CandidateScore(c, u, policy, range, p1, role)
         == CandidateScore(c, v, policy, range, p1, role)
  {
    if c.derivatives.Some? { BaseScoreSameMembers(c, u, v, policy, range); }
    P1ScoreSameMembers(c, u, v, p1, role);
  }
}
