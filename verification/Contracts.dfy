/** The fields of a candidate contract that the binders read, and the identification policy
    (src/trading/domain/contracts/snapshot.py, src/trading/identification/config.py).
    A feed is a list of snapshots; the binders tell them apart by symbol and never by
    position. */
module Contracts {
  import opened Wrappers
  import opened Ordering

  datatype OptionType = Call | Put

  datatype Trend = Up | Down | Range | Mixed | UnknownTrend

  datatype Volatility = Normal | Expanding | Compressed | UnknownVolatility

  datatype Greeks = Greeks(
    converged: bool,
    delta: Option<real>,
    impliedVolatility: Option<real>,
    theta: Option<real>,
    vega: Option<real>)

  datatype Derivatives = Derivatives(
    daysToExpiry: nat,
    openInterest: Option<nat>,
    greeks: Option<Greeks>)

  datatype Contract = Contract(
    symbol: string,
    isOption: bool,
    optionType: Option<OptionType>,
    strike: Option<real>,
    expiry: Option<int>)

  datatype Book = Book(
    bid: Option<real>,
    ask: Option<real>,
    bidSize: Option<nat>,
    askSize: Option<nat>,
    volume: Option<nat>)
  {
    /** Prices are not negative and the book is not crossed. */
    predicate Valid() {
      && (bid.Some? ==> bid.value >= 0.0)
      && (ask.Some? ==> ask.value >= 0.0)
      && (bid.Some? && ask.Some? ==> bid.value <= ask.value)
    }
  }

  datatype Snapshot = Snapshot(
    contract: Contract,
    derivatives: Option<Derivatives>,
    market: Book,
    permitsNewExposure: bool,
    lotSize: Option<real>,
    topOfBookObserved: Option<real>)
  {
    function Symbol(): string { contract.symbol }
  }

  datatype Policy = Policy(
    minOpenInterest: nat,
    maxSpreadFraction: real,
    longDeltaMin: real,
    longDeltaMax: real,
    shortDeltaMin: real,
    shortDeltaMax: real,
    weeklyDteMin: nat,
    weeklyDteMax: nat,
    monthlyDteMin: nat,
    monthlyDteMax: nat,
    minRewardRisk: real,
    roundTripCostPerLot: real)
  {
    /** The bounds the policy model enforces on load. */
    predicate Valid() {
      && 0.0 < maxSpreadFraction <= 1.0
      && minRewardRisk > 0.0
      && roundTripCostPerLot >= 0.0
    }
  }

  datatype Reason =
    | InstrumentUnknown
    | InstrumentMasterAbsent
    | DirectionUnresolved
    | DataInvalid
    | DataGap
    | PriceUnavailable
    | DepthInsufficient
    | SpreadTooWide
    | ExpiryZeroOneDteExcluded
    | CalendarNoEligibleExpiry

  function Symbols(items: seq<Snapshot>): (symbols: seq<string>)
    ensures |symbols| == |items|
    ensures forall i | 0 <= i < |items| :: symbols[i] == items[i].Symbol()
  {
    seq(|items|, i requires 0 <= i < |items| => items[i].Symbol())
  }

  lemma {:induction false} SymbolsPermutation(xs: seq<Snapshot>, ys: seq<Snapshot>)
    requires Permutation(xs, ys)
    ensures Permutation(Symbols(xs), Symbols(ys))
  {
    if xs == [] {
      assert |multiset(ys)| == 0;
    } else {
      var j := PermutationTail(xs, ys);
      var rest, symbols := ys[..j] + ys[j + 1..], Symbols(ys);
      SymbolsPermutation(xs[1..], rest);
      assert Symbols(rest) == symbols[..j] + symbols[j + 1..];
      RemoveAt(symbols, j);
      assert Symbols(xs) == [symbols[j]] + Symbols(xs[1..]);
    }
  }

  ghost predicate DistinctSymbols(items: seq<Snapshot>) {
    forall i, j | 0 <= i < j < |items| :: items[i].Symbol() != items[j].Symbol()
  }
}
