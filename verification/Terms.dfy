/** What an admissible structure costs, holds and scores, on quotes, lots and strikes. */
module Terms {
  import opened Wrappers
  import opened Contracts
  import opened Ordering
  import opened Scoring
  import opened Search
  import P = Payoff
  import D = Decimals

  // ------------------------------------------------------------------------ money

  /** Per lot, a debit spread costs the ask of the long leg less the bid of the short one plus the round trip,
      and a credit spread brings in the opposite amount. */
  lemma PerLot(long: Snapshot, short: Snapshot, policy: Policy)
    requires Priced(long, short)
    ensures Debit(long, short, policy) * long.lotSize.value
              == (long.market.ask.value - short.market.bid.value) * long.lotSize.value + policy.roundTripCostPerLot
    ensures NetCredit(long, short, policy) * long.lotSize.value
              == (short.market.bid.value - long.market.ask.value) * long.lotSize.value - policy.roundTripCostPerLot
  {
    D.DivideTimes(policy.roundTripCostPerLot, long.lotSize.value);
  }

  /** The two legs can be priced: the long one's ask, the short one's bid, and the long one's lot. */
  predicate Quoted(long: Snapshot, short: Snapshot) {
    long.market.ask.Some? && short.market.bid.Some? && long.lotSize.Some? && long.lotSize.value > 0.0
  }

  predicate TwoStrikes(long: Snapshot, short: Snapshot) {
    && long.contract.expiry == short.contract.expiry
    && long.contract.strike.Some? && short.contract.strike.Some?
  }

  lemma RatioTest(a: real, b: real, ratio: real)
    requires b > 0.0
    ensures a / b >= ratio <==> a >= ratio * b
    ensures a / b <= ratio <==> a <= ratio * b
  {
    P.RatioAtLeast(a, b, ratio);
  }

  /** A debit pair passes exactly if both legs share an expiry, the long strike is the lower call or the higher
      put, the quotes are there, and the spread costs something but so much less than its width that the best
      gain is the required multiple of the cost. */
  lemma DebitPairExactly(long: Snapshot, short: Snapshot, side: OptionType, policy: Policy)
    ensures ValidDebitPair(long, short, side, policy) <==>
              && TwoStrikes(long, short) && Quoted(long, short)
              && (side.Call? ==> long.contract.strike.value < short.contract.strike.value)
              && (side.Put? ==> long.contract.strike.value > short.contract.strike.value)
              && var debit := Debit(long, short, policy);
                 var width := D.Abs(long.contract.strike.value - short.contract.strike.value);
                 0.0 < debit < width && width - debit >= policy.minRewardRisk * debit
  {
    if Vertical(long, short) && Priced(long, short) && Debit(long, short, policy) > 0.0 {
      var debit := Debit(long, short, policy);
      RatioTest(Width(long, short) - debit, debit, policy.minRewardRisk);
    }
  }

  /** A credit pair mirrors it: the long strike is the lower put or the higher call, the spread brings something
      in but less than its width, and what it risks is at most the cap, four unless given, times what it brings. */
  lemma CreditPairExactly(long: Snapshot, short: Snapshot, side: OptionType, policy: Policy, cap: Option<real>)
    ensures ValidCreditPair(long, short, side, policy, cap) <==>
              && TwoStrikes(long, short) && Quoted(long, short)
              && (side.Put? ==> long.contract.strike.value < short.contract.strike.value)
              && (side.Call? ==> long.contract.strike.value > short.contract.strike.value)
              && var credit := NetCredit(long, short, policy);
                 var width := D.Abs(long.contract.strike.value - short.contract.strike.value);
                 0.0 < credit < width && width - credit <= (if cap.Some? then cap.value else 4.0) * credit
  {
    if Vertical(long, short) && Priced(long, short) && NetCredit(long, short, policy) > 0.0 {
      var credit := NetCredit(long, short, policy);
      RatioTest(Width(long, short) - credit, credit, RiskCap(cap));
    }
  }

  /** Only a debit spread asks for the deltas of its legs: the long one's in the policy's long range and the
      short one's in its short range. */
  lemma DebitDeltas(side: OptionType, desk: Desk, legs: seq<Snapshot>)
    requires Admissible(DebitSpread(side), desk, legs)
    ensures AbsDelta(legs[0]).Some? && AbsDelta(legs[1]).Some?
    ensures desk.policy.longDeltaMin <= AbsDelta(legs[0]).value <= desk.policy.longDeltaMax
    ensures desk.policy.shortDeltaMin <= AbsDelta(legs[1]).value <= desk.policy.shortDeltaMax
  {
  }

  /** The legs of anything but a vertical share an expiry that is known. */
  lemma ExpiryIsKnown(s: Structure, desk: Desk, legs: seq<Snapshot>)
    requires Admissible(s, desk, legs) && !s.DebitSpread? && !s.CreditSpread?
    ensures forall i | 0 <= i < |legs| ::
              legs[i].contract.expiry.Some? && legs[i].contract.expiry == legs[0].contract.expiry
  {
    assert SameExpiry(legs);
  }

  // ------------------------------------------------------------------------ holdings

  /** Lots of each leg held; a negative number is sold. */
  function Lots(s: Structure, i: nat): int {
    match s
    case DebitSpread(_) => if i == 1 then -1 else 1
    case CreditSpread(_, _) => if i == 1 then -1 else 1
    case VolatilityPair(_) => 1
    case LongButterfly(_) => if i == 1 then -2 else 1
    case IronCondor => if i == 1 || i == 2 then -1 else 1
    case IronButterfly => if i == 1 || i == 2 then -1 else 1
  }

  function Worth(c: Snapshot, settlement: real): real {
    if c.contract.optionType.None? then 0.0 else P.Intrinsic(c.contract.optionType.value, Strike(c), settlement)
  }

  /** The first n legs at a settlement price. */
  function Value(s: Structure, legs: seq<Snapshot>, n: nat, settlement: real): real
    requires n <= |legs|
  {
    if n == 0 then 0.0
    else Value(s, legs, n - 1, settlement) + Lots(s, n - 1) as real * Worth(legs[n - 1], settlement)
  }

  predicate AllOf(legs: seq<Snapshot>, side: OptionType) { forall i | 0 <= i < |legs| :: OfSide(legs[i], side) }

  /** Puts below calls. */
  predicate PutsThenCalls(legs: seq<Snapshot>) {
    |legs| % 2 == 0 && AllOf(legs[..|legs| / 2], Put) && AllOf(legs[|legs| / 2..], Call)
  }

  /** A vertical and a butterfly are of one side; the others put puts under calls. */
  lemma SidesOf(s: Structure, desk: Desk, legs: seq<Snapshot>)
    requires Admissible(s, desk, legs)
    ensures s.DebitSpread? || s.CreditSpread? || s.LongButterfly? ==> AllOf(legs, s.side)
    ensures s.VolatilityPair? || s.IronCondor? || s.IronButterfly? ==> PutsThenCalls(legs)
  {
  }

  /** These are the holdings whose profit the checks bound: a vertical's before what was paid for it, and the
      butterfly's. */
  lemma OneSidedHoldings(s: Structure, legs: seq<Snapshot>, settlement: real)
    requires s.DebitSpread? || s.CreditSpread? || s.LongButterfly?
    requires |legs| == LegCount(s) && AllOf(legs, s.side)
    ensures Value(s, legs, |legs|, settlement) ==
              if s.LongButterfly? then P.ButterflyValue(s.side, legs)(settlement)
              else P.VerticalPnl(s.side, Strike(legs[0]), Strike(legs[1]), 0.0)(settlement)
  {
    assert OfSide(legs[0], s.side) && OfSide(legs[1], s.side);
    assert Value(s, legs, 1, settlement) == Worth(legs[0], settlement);
    var middle: real := if s.LongButterfly? then 2.0 else 1.0;
    assert Value(s, legs, 2, settlement) == Worth(legs[0], settlement) - middle * Worth(legs[1], settlement);
    if s.LongButterfly? { assert OfSide(legs[2], s.side); }
  }

  /** Short wings are worth what is owed on them, taken away, and a pair of bought options never less than
      nothing. */
  lemma TwoSidedHoldings(s: Structure, legs: seq<Snapshot>, settlement: real)
    requires s.VolatilityPair? || s.IronCondor? || s.IronButterfly?
    requires |legs| == LegCount(s) && PutsThenCalls(legs)
    ensures s.VolatilityPair? ==> Value(s, legs, 2, settlement) >= 0.0
    ensures !s.VolatilityPair? ==> Value(s, legs, 4, settlement) == -P.Owed(legs)(settlement)
  {
    if s.VolatilityPair? {
      assert Value(s, legs, 1, settlement) == Worth(legs[0], settlement);
      assert Value(s, legs, 2, settlement) == Worth(legs[0], settlement) + Worth(legs[1], settlement);
    } else {
      var puts, calls := legs[..2], legs[2..];
      assert OfSide(puts[0], Put) && OfSide(puts[1], Put) && OfSide(calls[0], Call) && OfSide(calls[1], Call);
      WingValue(s, legs, settlement);
    }
  }

  lemma WingValue(s: Structure, legs: seq<Snapshot>, settlement: real)
    requires (s.IronCondor? || s.IronButterfly?) && |legs| == 4
    ensures Value(s, legs, 4, settlement) == Worth(legs[0], settlement) - Worth(legs[1], settlement)
              - Worth(legs[2], settlement) + Worth(legs[3], settlement)
  {
    assert Value(s, legs, 1, settlement) == Worth(legs[0], settlement);
    assert Value(s, legs, 2, settlement) == Worth(legs[0], settlement) - Worth(legs[1], settlement);
    assert Value(s, legs, 3, settlement)
        == Worth(legs[0], settlement) - Worth(legs[1], settlement) - Worth(legs[2], settlement);
  }

  // -------------------------------------------------------------------------- scores

  /** The delta range each leg is scored against. */
  function RangeFor(s: Structure, policy: Policy, i: nat): DeltaRange {
    var long, short := DeltaRange(policy.longDeltaMin, policy.longDeltaMax),
                       DeltaRange(policy.shortDeltaMin, policy.shortDeltaMax);
    match s
    case DebitSpread(_) => if Lots(s, i) < 0 then short else long
    case CreditSpread(_, _) => if Lots(s, i) < 0 then short else DeltaRange(0.05, policy.shortDeltaMax)
    case IronCondor => if Lots(s, i) < 0 then short else DeltaRange(0.05, 0.25)
    case _ => long
  }

  /** The score of a leg in the role its lots give it. */
  function PartScore(s: Structure, desk: Desk, legs: seq<Snapshot>, i: nat): real
    requires desk.Valid() && i < |legs|
  {
    CandidateScore(legs[i], desk.universe, desk.policy, RangeFor(s, desk.policy, i), desk.p1,
                   if Lots(s, i) < 0 then ShortRole else LongRole)
  }

  /** A structure scores the mean of its legs, what is sold as a short leg and what is bought as a long one; a
      condor also loses a thousandth for each point by which one wing is wider than the other. */
  lemma ScoreIsTheMeanOfItsLegs(s: Structure, desk: Desk, legs: seq<Snapshot>)
    requires desk.Valid() && |legs| == LegCount(s)
    ensures |legs| == 2 ==>
              RawScore(s, desk, legs) * 2.0 == PartScore(s, desk, legs, 0) + PartScore(s, desk, legs, 1)
    ensures |legs| == 3 ==>
              RawScore(s, desk, legs) * 3.0
                == PartScore(s, desk, legs, 0) + PartScore(s, desk, legs, 1) + PartScore(s, desk, legs, 2)
    ensures |legs| == 4 ==>
              RawScore(s, desk, legs) * 4.0
                == PartScore(s, desk, legs, 0) + PartScore(s, desk, legs, 1) + PartScore(s, desk, legs, 2)
                     + PartScore(s, desk, legs, 3)
                     - (if s.IronCondor? then WingMismatch(legs) * 0.004 else 0.0)
  {
  }

  /** What is bound has the highest score on offer, to six places, and among equals the least leg symbols. */
  lemma NothingScoresHigher(s: Structure, desk: Desk, all: seq<Snapshot>, b: Binding, other: seq<Snapshot>)
    requires desk.Valid() && Binds(s, desk, all, b) && b.Bound? && Admissible(s, desk, other)
    ensures b.score >= Q6(RawScore(s, desk, other))
    ensures b.score == Q6(RawScore(s, desk, other)) && !s.IronButterfly? ==>
              !SymbolsLess(Symbols(other), Symbols(b.legs))
  {
    var legs := ChosenLegs(s, desk, all, b);
    OutcomeShows(s, desk, all, b, legs);
    BestOutranks(s, desk, legs, other);
  }

  lemma ChosenLegs(s: Structure, desk: Desk, all: seq<Snapshot>, b: Binding) returns (legs: seq<Snapshot>)
    requires desk.Valid() && Binds(s, desk, all, b) && b.Bound?
    ensures Best(s, desk, legs) && b == Outcome(s, desk, all, legs)
  {
    legs :| Best(s, desk, legs) && b == Outcome(s, desk, all, legs);
  }

  lemma OutcomeShows(s: Structure, desk: Desk, all: seq<Snapshot>, b: Binding, legs: seq<Snapshot>)
    requires desk.Valid() && |legs| == LegCount(s) && b == Outcome(s, desk, all, legs) && b.Bound?
    ensures b.score == Q6(RawScore(s, desk, legs))
    ensures !s.IronButterfly? ==> b.legs == legs
  {
  }

  lemma BestOutranks(s: Structure, desk: Desk, legs: seq<Snapshot>, other: seq<Snapshot>)
    requires desk.Valid() && Best(s, desk, legs) && Admissible(s, desk, other)
    ensures Q6(RawScore(s, desk, legs)) >= Q6(RawScore(s, desk, other))
    ensures Q6(RawScore(s, desk, legs)) == Q6(RawScore(s, desk, other)) ==>
              !SymbolsLess(Symbols(other), Symbols(legs))
  {
    assert !RowLess(RowOf(s, desk, other), RowOf(s, desk, legs));
  }
}
