/** Offline judgment of a cohort (src/trading/analytics/judgment.py): labels, confusion counts,
    Brier score and its reliability component. */
module Judgment {
  import opened Wrappers
  import opened Grouping
  import D = Decimals

  datatype Setup = Setup(calibrated: bool, rawScore: real)

  datatype Signal = Signal(
    declined: bool, executed: bool, mae: Option<real>, mfe: Option<real>, lots: nat,
    setup: Option<Setup>, agentConfidence: Option<real>)

  datatype Thresholds = Thresholds(
    minNetMfe: real, requireMfeBeatsMae: bool, minPrecision: real, minCapture: real, maxBrier: real)

  datatype Row = Row(
    shouldEnter: Option<bool>, entered: bool, confidence: Option<real>, agentConfidence: Option<real>)

  function LabelSignal(s: Signal, chargesPerLot: real, t: Thresholds): Option<bool> {
    if s.declined || s.mae.None? || s.mfe.None? then None
    else
      var netMfe := s.mfe.value - chargesPerLot * s.lots as real;
      if netMfe < t.minNetMfe then Some(false)
      else Some(!(t.requireMfeBeatsMae && netMfe <= s.mae.value))
  }

  function RowFor(s: Signal, chargesPerLot: real, t: Thresholds): Row {
    Row(LabelSignal(s, chargesPerLot, t),
        !s.declined && s.executed && s.mae.Some? && s.mfe.Some?,
        if s.setup.Some? && s.setup.value.calibrated then Some(s.setup.value.rawScore) else None,
        s.agentConfidence)
  }

  // ------------------------------------------------------------- scored forecasts

  /** One forecast with the outcome it was about. */
  datatype Forecast = Forecast(confidence: real, outcome: real)

  datatype Source = SetupSource | AgentSource

  function ConfidenceOf(r: Row, source: Source): Option<real> {
    if source.SetupSource? then r.confidence else r.agentConfidence
  }

  function ForecastOf(r: Row, source: Source): Option<Forecast> {
    if r.shouldEnter.None? || ConfidenceOf(r, source).None? then None
    else Some(Forecast(ConfidenceOf(r, source).value, if r.shouldEnter.value then 1.0 else 0.0))
  }

  /** The labelled rows that carry a confidence, as forecasts. */
  function Forecasts(rows: seq<Row>, source: Source): seq<Forecast> {
    if rows == [] then []
    else
      var n := |rows| - 1;
      var rest, last := Forecasts(rows[..n], source), ForecastOf(rows[n], source);
      if last.Some? then rest + [last.value] else rest
  }

  function Miss(f: Forecast): real { f.confidence - f.outcome }

  function Square(x: real): (r: real)
    ensures r >= 0.0
  {
    x * x
  }

  function SquaredMiss(): Forecast -> real { (f: Forecast) => Square(Miss(f)) }

  function Q4(x: real): real { D.Quantize(x, 10_000) }

  function BrierScore(fs: seq<Forecast>): Option<real> {
    if fs == [] then None else Some(Q4(Total(fs, SquaredMiss()) / |fs| as real))
  }

  /** `min(4, int(confidence * 5))`. */
  function Bucket(): Forecast -> int {
    (f: Forecast) =>
      var b := D.Round(f.confidence * 5.0, D.TowardZero);
      if b < 4 then b else 4
  }

  function Confidence(): Forecast -> real { (f: Forecast) => f.confidence }

  function OutcomeOf(): Forecast -> real { (f: Forecast) => f.outcome }

  function MeanOf(fs: seq<Forecast>, measure: Forecast -> real): real
    requires fs != []
  {
    Total(fs, measure) / |fs| as real
  }

  /** The weighted squared gap between mean forecast and mean outcome of one bucket. */
  function Gap(fs: seq<Forecast>): (gap: real)
    ensures gap >= 0.0
  {
    if fs == [] then 0.0
    else
      var c := MeanOf(fs, Confidence()) - MeanOf(fs, OutcomeOf());
      Weighted(|fs| as real, c)
  }

  function Weighted(n: real, c: real): real { n * Square(c) }

  function GapOf(): seq<Forecast> -> real { (fs: seq<Forecast>) => Gap(fs) }

  function ReliabilityScore(fs: seq<Forecast>): Option<real> {
    if fs == [] then None
    else Some(Q4(GroupTotal(GroupBy(fs, Bucket()), GapOf()) / |fs| as real))
  }

  // ------------------------------------------------------------------- the loops

  method Brier(rows: seq<Row>, source: Source) returns (score: Option<real>)
    ensures score == BrierScore(Forecasts(rows, source))
  {
    var count, total := 0, 0.0;
    for i := 0 to |rows|
      invariant count == |Forecasts(rows[..i], source)|
      invariant total == Total(Forecasts(rows[..i], source), SquaredMiss())
    {
      ghost var before := Forecasts(rows[..i], source);
      assert rows[..i + 1][..i] == rows[..i];
      var forecast := ForecastOf(rows[i], source);
      if forecast.Some? {
        var miss := forecast.value.confidence - forecast.value.outcome;
        TotalLast(before, forecast.value, SquaredMiss());
        count, total := count + 1, total + Square(miss);
      }
    }
    assert rows[..|rows|] == rows;
    score := if count == 0 then None else Some(Q4(total / count as real));
  }

  /** `buckets.setdefault(min(4, int(confidence * 5)), []).append(row)`. */
  method FillBuckets(rows: seq<Row>, source: Source) returns (buckets: seq<Group<int, Forecast>>)
    ensures buckets == GroupBy(Forecasts(rows, source), Bucket())
  {
    buckets := [];
    for i := 0 to |rows|
      invariant buckets == GroupBy(Forecasts(rows[..i], source), Bucket())
    {
      ghost var before := Forecasts(rows[..i], source);
      assert rows[..i + 1][..i] == rows[..i];
      var forecast := ForecastOf(rows[i], source);
      if forecast.Some? {
        GroupByLast(before, forecast.value, Bucket());
        buckets := Add(buckets, Bucket()(forecast.value), forecast.value);
      }
    }
    assert rows[..|rows|] == rows;
  }

  /** The summed gaps and the number of forecasts over the buckets. */
  method SumGaps(buckets: seq<Group<int, Forecast>>) returns (reliability: real, total: nat)
    ensures reliability == GroupTotal(buckets, GapOf()) && total == Count(buckets)
  {
    reliability, total := 0.0, 0;
    for i := 0 to |buckets|
      invariant reliability + GroupTotal(buckets[i..], GapOf()) == GroupTotal(buckets, GapOf())
      invariant total + Count(buckets[i..]) == Count(buckets)
    {
      assert buckets[i..][1..] == buckets[i + 1..];
      reliability := reliability + Gap(buckets[i].members);
      total := total + |buckets[i].members|;
    }
  }

  method Reliability(rows: seq<Row>, source: Source) returns (score: Option<real>)
    ensures score == ReliabilityScore(Forecasts(rows, source))
  {
    ghost var fs := Forecasts(rows, source);
    var buckets := FillBuckets(rows, source);
    GroupByCount(fs, Bucket());
    if buckets == [] {
      return None;
    }
    var reliability, total := SumGaps(buckets);
    score := if total <= 0 then None else Some(Q4(reliability / total as real));
  }

  function Count<K, V>(groups: seq<Group<K, V>>): nat {
    if groups == [] then 0 else |groups[0].members| + Count(groups[1..])
  }

  lemma {:induction false} AddCount<K, V>(groups: seq<Group<K, V>>, key: K, row: V)
    ensures Count(Add(groups, key, row)) == Count(groups) + 1
    ensures Add(groups, key, row) != []
  {
    if groups != [] && groups[0].key != key { AddCount(groups[1..], key, row); }
  }

  lemma {:induction false} GroupByCount<K, V>(rows: seq<V>, keyOf: V -> K)
    ensures Count(GroupBy(rows, keyOf)) == |rows|
    ensures GroupBy(rows, keyOf) == [] <==> rows == []
  {
    if rows != [] {
      var n := |rows| - 1;
      GroupByCount(rows[..n], keyOf);
      AddCount(GroupBy(rows[..n], keyOf), keyOf(rows[n]), rows[n]);
    }
  }

  // -------------------------------------------------- reliability against Brier score

  /** Squared misses measured from a centre instead of from zero. */
  function SquaredMissFrom(c: real): Forecast -> real { (f: Forecast) => Square(Miss(f) - c) }

  function Cross(c: real, sum: real): real { 2.0 * c * sum }

  /** Sum of (miss - c) squared, from the sum of squares, the sum and the count of the misses. */
  ghost predicate Around(from: real, squares: real, sum: real, n: real, c: real) {
    from == squares - Cross(c, sum) + Weighted(n, c)
  }

  lemma AroundStep(from: real, squares: real, sum: real, n: real, m: real, c: real)
    requires Around(from, squares, sum, n, c)
    ensures Around(from + Square(m - c), squares + Square(m), sum + m, n + 1.0, c)
  {
  }

  function Misses(fs: seq<Forecast>): real { Total(fs, Confidence()) - Total(fs, OutcomeOf()) }

  lemma {:induction false} TotalsAroundCentre(fs: seq<Forecast>, c: real)
    ensures Around(Total(fs, SquaredMissFrom(c)), Total(fs, SquaredMiss()), Misses(fs), |fs| as real, c)
  {
    if fs != [] {
      var rest, m := fs[..|fs| - 1], Miss(fs[|fs| - 1]);
      TotalsAroundCentre(rest, c);
      AroundStep(Total(rest, SquaredMissFrom(c)), Total(rest, SquaredMiss()), Misses(rest),
                 |rest| as real, m, c);
      assert Total(fs, SquaredMissFrom(c)) == Total(rest, SquaredMissFrom(c)) + Square(m - c);
      assert Total(fs, SquaredMiss()) == Total(rest, SquaredMiss()) + Square(m);
      assert Misses(fs) == Misses(rest) + m && |rest| as real + 1.0 == |fs| as real;
    }
  }

  lemma {:induction false} ScatterNotNegative(fs: seq<Forecast>, c: real)
    ensures Total(fs, SquaredMissFrom(c)) >= 0.0
  {
    if fs != [] { ScatterNotNegative(fs[..|fs| - 1], c); }
  }

  /** How much the misses of one bucket scatter around their own mean. */
  function Scatter(fs: seq<Forecast>): real {
    if fs == [] then 0.0
    else Total(fs, SquaredMissFrom(MeanOf(fs, Confidence()) - MeanOf(fs, OutcomeOf())))
  }

  function ScatterOf(): seq<Forecast> -> real { (fs: seq<Forecast>) => Scatter(fs) }

  /** Around its own mean the centring terms of a sum of squares collapse into one. */
  lemma MeanCentre(scatter: real, squares: real, f: real, o: real, n: real, c: real)
    requires n > 0.0 && c == f / n - o / n
    requires Around(scatter, squares, f - o, n, c)
    ensures squares == Weighted(n, c) + scatter
  {
    D.DivideTimes(f, n);
    D.DivideTimes(o, n);
    D.Distribute(f / n, o / n, n);
    assert c * n == f - o;
    assert c * (f - o) == c * (c * n) == n * Square(c);
  }

  lemma SplitAtMean(fs: seq<Forecast>, c: real)
    requires fs != [] && c == MeanOf(fs, Confidence()) - MeanOf(fs, OutcomeOf())
    ensures Total(fs, SquaredMiss()) == Weighted(|fs| as real, c) + Total(fs, SquaredMissFrom(c))
    ensures Total(fs, SquaredMissFrom(c)) >= 0.0
  {
    ScatterNotNegative(fs, c);
    TotalsAroundCentre(fs, c);
    MeanCentre(Total(fs, SquaredMissFrom(c)), Total(fs, SquaredMiss()), Total(fs, Confidence()),
               Total(fs, OutcomeOf()), |fs| as real, c);
  }

  lemma BucketSplits(fs: seq<Forecast>)
    ensures Total(fs, SquaredMiss()) == Gap(fs) + Scatter(fs)
    ensures Scatter(fs) >= 0.0
  {
    if fs != [] {
      var c := MeanOf(fs, Confidence()) - MeanOf(fs, OutcomeOf());
      SplitAtMean(fs, c);
      assert Gap(fs) == Weighted(|fs| as real, c) && Scatter(fs) == Total(fs, SquaredMissFrom(c));
    }
  }

  lemma {:induction false} GroupsSplit(groups: seq<Group<int, Forecast>>)
    ensures GroupTotal(groups, TotalOf(SquaredMiss()))
         == GroupTotal(groups, GapOf()) + GroupTotal(groups, ScatterOf())
    ensures GroupTotal(groups, ScatterOf()) >= 0.0
  {
    if groups != [] {
      GroupsSplit(groups[1..]);
      BucketSplits(groups[0].members);
    }
  }

  /** Murphy's decomposition, for any bucketing of any forecasts: the summed squared misses are
      the reliability gaps plus the scatter inside the buckets. */
  lemma MurphyDecomposition(fs: seq<Forecast>, bucketOf: Forecast -> int)
    ensures var groups := GroupBy(fs, bucketOf);
            && Total(fs, SquaredMiss()) == GroupTotal(groups, GapOf()) + GroupTotal(groups, ScatterOf())
            && GroupTotal(groups, ScatterOf()) >= 0.0
  {
    GroupByTotal(fs, bucketOf, SquaredMiss());
    GroupsSplit(GroupBy(fs, bucketOf));
  }

  /** Rounded reliability never exceeds the rounded Brier score, for any bucketing of any forecasts. */
  lemma AnyBucketsStayBelowBrier(fs: seq<Forecast>, bucketOf: Forecast -> int)
    requires fs != []
    ensures 0.0 <= Q4(GroupTotal(GroupBy(fs, bucketOf), GapOf()) / |fs| as real)
                <= Q4(Total(fs, SquaredMiss()) / |fs| as real)
  {
    MurphyDecomposition(fs, bucketOf);
    GapsNotNegative(GroupBy(fs, bucketOf));
    QuantizedMeans(GroupTotal(GroupBy(fs, bucketOf), GapOf()), Total(fs, SquaredMiss()), |fs| as real);
  }

  /** The reported reliability never exceeds the reported Brier score on the same rows; one is
      reported exactly when the other is. */
  lemma ReliabilityNeverExceedsBrier(rows: seq<Row>, source: Source)
    ensures var fs := Forecasts(rows, source);
            && (BrierScore(fs).Some? <==> ReliabilityScore(fs).Some?)
            && (BrierScore(fs).Some? ==> 0.0 <= ReliabilityScore(fs).value <= BrierScore(fs).value)
  {
    var fs := Forecasts(rows, source);
    if fs != [] { AnyBucketsStayBelowBrier(fs, Bucket()); }
  }

  lemma QuantizedMeans(a: real, b: real, n: real)
    requires 0.0 <= a <= b && n > 0.0
    ensures 0.0 <= Q4(a / n) <= Q4(b / n)
  {
    D.DivideMonotone(a, b, n);
    D.DivideMonotone(0.0, a, n);
    D.QuantizeMonotone(a / n, b / n, 10_000);
    D.QuantizeMonotone(0.0, a / n, 10_000);
    D.QuantizeInteger(0.0, 0, 10_000);
  }

  lemma {:induction false} GapsNotNegative(groups: seq<Group<int, Forecast>>)
    ensures GroupTotal(groups, GapOf()) >= 0.0
  {
    if groups != [] { GapsNotNegative(groups[1..]); }
  }

  // ----------------------------------------------------------------- confusion counts

  predicate IsLabeled(r: Row) { r.shouldEnter.Some? }

  predicate ShouldEnter(r: Row) { r.shouldEnter.Some? && r.shouldEnter.value }

  predicate ShouldPass(r: Row) { r.shouldEnter.Some? && !r.shouldEnter.value }

  predicate EnteredLabeled(r: Row) { r.shouldEnter.Some? && r.entered }

  predicate IsTruePositive(r: Row) { EnteredLabeled(r) && r.shouldEnter.value }

  predicate IsFalsePositive(r: Row) { EnteredLabeled(r) && !r.shouldEnter.value }

  predicate IsFalseNegative(r: Row) { ShouldEnter(r) && !r.entered }

  function Tally(p: Row -> bool, rows: seq<Row>): nat {
    if rows == [] then 0
    else Tally(p, rows[..|rows| - 1]) + if p(rows[|rows| - 1]) then 1 else 0
  }

  lemma {:induction false} ConfusionBalances(rows: seq<Row>)
    ensures Tally(IsTruePositive, rows) + Tally(IsFalsePositive, rows) == Tally(EnteredLabeled, rows)
    ensures Tally(IsTruePositive, rows) + Tally(IsFalseNegative, rows) == Tally(ShouldEnter, rows)
    ensures Tally(ShouldEnter, rows) + Tally(ShouldPass, rows) == Tally(IsLabeled, rows)
    ensures Tally(IsLabeled, rows) <= |rows|
  {
    if rows != [] {
      var r := rows[|rows| - 1];
      ConfusionBalances(rows[..|rows| - 1]);
      assert IsTruePositive(r) || IsFalsePositive(r) <==> EnteredLabeled(r);
    }
  }

  function Ratio(numerator: nat, denominator: nat): Option<real> {
    if denominator == 0 then None
    else Some(Q4(numerator as real / denominator as real))
  }

  // ------------------------------------------------------------------- what is counted

  /** Both excursions of a taken signal are known, so it can be labelled. */
  predicate Labelable(s: Signal) { !s.declined && s.mae.Some? && s.mfe.Some? }

  /** Its best excursion covers the charges and the minimum, and where required beats its worst one
      after the charges. */
  predicate WorthEntering(s: Signal, chargesPerLot: real, t: Thresholds) {
    && Labelable(s)
    && s.mfe.value >= chargesPerLot * s.lots as real + t.minNetMfe
    && (t.requireMfeBeatsMae ==> s.mfe.value > s.mae.value + chargesPerLot * s.lots as real)
  }

  function Labelables(): Signal -> bool { (s: Signal) => Labelable(s) }

  function Worthwhile(chargesPerLot: real, t: Thresholds): Signal -> bool {
    (s: Signal) => WorthEntering(s, chargesPerLot, t)
  }

  function Taken(): Signal -> bool { (s: Signal) => Labelable(s) && s.executed }

  function WorthTaken(chargesPerLot: real, t: Thresholds): Signal -> bool {
    (s: Signal) => WorthEntering(s, chargesPerLot, t) && s.executed
  }

  function CountOf(p: Signal -> bool, signals: seq<Signal>): nat {
    if signals == [] then 0
    else CountOf(p, signals[..|signals| - 1]) + if p(signals[|signals| - 1]) then 1 else 0
  }

  lemma LabelMeans(s: Signal, chargesPerLot: real, t: Thresholds)
    ensures var r := RowFor(s, chargesPerLot, t);
            && (IsLabeled(r) <==> Labelable(s))
            && (ShouldEnter(r) <==> WorthEntering(s, chargesPerLot, t))
            && (EnteredLabeled(r) <==> Labelable(s) && s.executed)
            && (IsTruePositive(r) <==> WorthEntering(s, chargesPerLot, t) && s.executed)
  {
  }

  /** The confusion counts, as counts over the signals themselves. */
  lemma {:induction false} RowsCountSignals(signals: seq<Signal>, chargesPerLot: real, t: Thresholds)
    ensures var rows := Rows(signals, chargesPerLot, t);
            && Tally(IsLabeled, rows) == CountOf(Labelables(), signals)
            && Tally(ShouldEnter, rows) == CountOf(Worthwhile(chargesPerLot, t), signals)
            && Tally(EnteredLabeled, rows) == CountOf(Taken(), signals)
            && Tally(IsTruePositive, rows) == CountOf(WorthTaken(chargesPerLot, t), signals)
  {
    if signals != [] {
      var n := |signals| - 1;
      RowsCountSignals(signals[..n], chargesPerLot, t);
      LabelMeans(signals[n], chargesPerLot, t);
      assert Rows(signals, chargesPerLot, t)[..n] == Rows(signals[..n], chargesPerLot, t);
      assert Rows(signals, chargesPerLot, t)[n] == RowFor(signals[n], chargesPerLot, t);
    }
  }

  /** The confidence a signal carries: its calibrated set-up score, or the agent's own. */
  function ConfidenceIn(s: Signal, source: Source): Option<real> {
    if source.AgentSource? then s.agentConfidence
    else if s.setup.None? || !s.setup.value.calibrated then None
    else Some(s.setup.value.rawScore)
  }

  /** The scored forecasts, from the signals themselves. */
  function SignalForecasts(signals: seq<Signal>, chargesPerLot: real, t: Thresholds, source: Source): seq<Forecast> {
    if signals == [] then []
    else
      var n := |signals| - 1;
      var s, rest := signals[n], SignalForecasts(signals[..n], chargesPerLot, t, source);
      if !Labelable(s) || ConfidenceIn(s, source).None? then rest
      else
        var outcome := if WorthEntering(s, chargesPerLot, t) then 1.0 else 0.0;
        rest + [Forecast(ConfidenceIn(s, source).value, outcome)]
  }

  lemma {:induction false} RowsForecastSignals(
    signals: seq<Signal>, chargesPerLot: real, t: Thresholds, source: Source)
    ensures Forecasts(Rows(signals, chargesPerLot, t), source) == SignalForecasts(signals, chargesPerLot, t, source)
  {
    if signals != [] {
      var n := |signals| - 1;
      RowsForecastSignals(signals[..n], chargesPerLot, t, source);
      LabelMeans(signals[n], chargesPerLot, t);
      assert Rows(signals, chargesPerLot, t)[..n] == Rows(signals[..n], chargesPerLot, t);
      assert Rows(signals, chargesPerLot, t)[n] == RowFor(signals[n], chargesPerLot, t);
    }
  }

  lemma ChargesGrow(low: real, high: real, lots: nat)
    requires low <= high
    ensures low * lots as real <= high * lots as real
  {
  }

  lemma DearerIsNoBetter(s: Signal, low: real, high: real, t: Thresholds)
    requires low <= high && WorthEntering(s, high, t)
    ensures WorthEntering(s, low, t)
  {
    ChargesGrow(low, high, s.lots);
  }

  /** Dearer trading never makes a signal worth entering, nor the count of such signals larger. */
  lemma {:induction false} ChargesNeverHelp(signals: seq<Signal>, low: real, high: real, t: Thresholds)
    requires low <= high
    ensures CountOf(Worthwhile(high, t), signals) <= CountOf(Worthwhile(low, t), signals)
    ensures forall s | s in signals && WorthEntering(s, high, t) :: WorthEntering(s, low, t)
  {
    forall s | s in signals && WorthEntering(s, high, t) ensures WorthEntering(s, low, t) {
      DearerIsNoBetter(s, low, high, t);
    }
    if signals != [] { ChargesNeverHelp(signals[..|signals| - 1], low, high, t); }
  }

  datatype GateId = MinPrecision | MinCapture | BrierUnavailable | MaxBrier | AgentBrierUnavailable

  datatype Report = Report(
    labeled: nat, shouldEnter: nat, shouldPass: nat, entered: nat,
    truePositive: nat, falsePositive: nat, falseNegative: nat,
    precision: Option<real>, capture: Option<real>,
    setupBrier: Option<real>, setupReliability: Option<real>,
    agentBrier: Option<real>, agentReliability: Option<real>,
    failedGates: seq<GateId>)

  function Rows(signals: seq<Signal>, chargesPerLot: real, t: Thresholds): (rows: seq<Row>)
    ensures |rows| == |signals|
  {
    seq(|signals|, i requires 0 <= i < |signals| => RowFor(signals[i], chargesPerLot, t))
  }

  function Labeled(rows: seq<Row>): seq<Row> {
    if rows == [] then []
    else
      var n := |rows| - 1;
      if IsLabeled(rows[n]) then Labeled(rows[..n]) + [rows[n]] else Labeled(rows[..n])
  }

  /** Unlabelled rows carry no forecast. */
  lemma {:induction false} LabeledForecasts(rows: seq<Row>, source: Source)
    ensures Forecasts(Labeled(rows), source) == Forecasts(rows, source)
  {
    if rows != [] {
      var n := |rows| - 1;
      LabeledForecasts(rows[..n], source);
      var kept := Labeled(rows[..n]);
      if IsLabeled(rows[n]) {
        assert (kept + [rows[n]])[..|kept|] == kept;
      }
    }
  }

  function When(condition: bool, gate: GateId): seq<GateId> { if condition then [gate] else [] }

  function FailedGates(
    precision: Option<real>, capture: Option<real>, setupBrier: Option<real>, t: Thresholds)
    : (gates: seq<GateId>)
    ensures MinPrecision in gates <==> precision.None? || precision.value < t.minPrecision
    ensures MinCapture in gates <==> capture.None? || capture.value < t.minCapture
    ensures BrierUnavailable in gates <==> setupBrier.None?
    ensures MaxBrier in gates <==> setupBrier.Some? && setupBrier.value > t.maxBrier
  {
    When(precision.None? || precision.value < t.minPrecision, MinPrecision)
    + When(capture.None? || capture.value < t.minCapture, MinCapture)
    + When(setupBrier.None?, BrierUnavailable)
    + When(setupBrier.Some? && setupBrier.value > t.maxBrier, MaxBrier)
  }

  method LabelRows(signals: seq<Signal>, chargesPerLot: real, t: Thresholds) returns (rows: seq<Row>)
    ensures rows == Rows(signals, chargesPerLot, t)
  {
    rows := [];
    for i := 0 to |signals|
      invariant rows == Rows(signals[..i], chargesPerLot, t)
    {
      rows := rows + [RowFor(signals[i], chargesPerLot, t)];
    }
    assert signals[..|signals|] == signals;
  }

  method Calibrate(rows: seq<Row>, source: Source)
    returns (brier: Option<real>, reliability: Option<real>)
    ensures brier == BrierScore(Forecasts(rows, source))
    ensures reliability == ReliabilityScore(Forecasts(rows, source))
    ensures brier.Some? <==> reliability.Some?
    ensures brier.Some? ==> 0.0 <= reliability.value <= brier.value
  {
    LabeledForecasts(rows, source);
    brier := Brier(Labeled(rows), source);
    reliability := Reliability(Labeled(rows), source);
    ReliabilityNeverExceedsBrier(rows, source);
  }

  /** What a report says of the signals. The counts are counts of signals and balance, and both pairs of
      scores are those of the confidences held against what turned out worth entering. */
  ghost predicate Judges(report: Report, signals: seq<Signal>, chargesPerLot: real, t: Thresholds) {
    && report.labeled == Tally(IsLabeled, Rows(signals, chargesPerLot, t))
    && report.truePositive == Tally(IsTruePositive, Rows(signals, chargesPerLot, t))
    && report.entered == Tally(EnteredLabeled, Rows(signals, chargesPerLot, t))
    && report.shouldEnter == Tally(ShouldEnter, Rows(signals, chargesPerLot, t))
    && report.labeled == CountOf(Labelables(), signals)
    && report.shouldEnter == CountOf(Worthwhile(chargesPerLot, t), signals)
    && report.entered == CountOf(Taken(), signals)
    && report.truePositive == CountOf(WorthTaken(chargesPerLot, t), signals)
    && report.truePositive + report.falsePositive == report.entered
    && report.truePositive + report.falseNegative == report.shouldEnter
    && report.shouldEnter + report.shouldPass == report.labeled <= |signals|
    && report.precision == Ratio(report.truePositive, report.entered)
    && report.capture == Ratio(report.truePositive, report.shouldEnter)
    && report.setupBrier == BrierScore(SignalForecasts(signals, chargesPerLot, t, SetupSource))
    && report.setupReliability == ReliabilityScore(SignalForecasts(signals, chargesPerLot, t, SetupSource))
    && report.agentBrier == BrierScore(SignalForecasts(signals, chargesPerLot, t, AgentSource))
    && report.agentReliability == ReliabilityScore(SignalForecasts(signals, chargesPerLot, t, AgentSource))
    && (report.setupBrier.Some? ==> report.setupReliability.Some?)
    && (report.setupBrier.Some? ==> report.setupReliability.value <= report.setupBrier.value)
    && (report.agentBrier.Some? ==> report.agentReliability.Some?)
    && (report.agentBrier.Some? ==> report.agentReliability.value <= report.agentBrier.value)
    && report.failedGates == FailedGates(report.precision, report.capture, report.setupBrier, t)
  }

  /** Balanced confusion counts, rates over them, both calibration pairs and the failed gates. */
  method EvaluateJudgment(signals: seq<Signal>, chargesPerLot: real, t: Thresholds)
    returns (report: Report)
    ensures Judges(report, signals, chargesPerLot, t)
  {
    var rows := LabelRows(signals, chargesPerLot, t);
    var setupBrier, setupReliability := Calibrate(rows, SetupSource);
    var agentBrier, agentReliability := Calibrate(rows, AgentSource);
    ConfusionBalances(rows);
    RowsCountSignals(signals, chargesPerLot, t);
    RowsForecastSignals(signals, chargesPerLot, t, SetupSource);
    RowsForecastSignals(signals, chargesPerLot, t, AgentSource);
    var truePositive := Tally(IsTruePositive, rows);
    var entered, shouldEnter := Tally(EnteredLabeled, rows), Tally(ShouldEnter, rows);
    var precision, capture := Ratio(truePositive, entered), Ratio(truePositive, shouldEnter);
    var gates := FailedGates(precision, capture, setupBrier, t);
    AgentGateNeverFires(rows);
    if AnyAgent(Labeled(rows)) && agentBrier.None? {
      gates := gates + [AgentBrierUnavailable];
    }
    report := Report(
      Tally(IsLabeled, rows), shouldEnter, Tally(ShouldPass, rows), entered,
      truePositive, Tally(IsFalsePositive, rows), Tally(IsFalseNegative, rows),
      precision, capture, setupBrier, setupReliability, agentBrier, agentReliability, gates);
  }

  predicate AnyAgent(rows: seq<Row>) {
    exists i :: 0 <= i < |rows| && rows[i].agentConfidence.Some?
  }

  lemma {:induction false} ForecastsNotEmpty(rows: seq<Row>, source: Source, i: nat)
    requires i < |rows| && ForecastOf(rows[i], source).Some?
    ensures Forecasts(rows, source) != []
  {
    var n := |rows| - 1;
    if i < n { ForecastsNotEmpty(rows[..n], source, i); }
  }

  lemma {:induction false} LabeledAll(rows: seq<Row>)
    ensures forall i | 0 <= i < |Labeled(rows)| :: IsLabeled(Labeled(rows)[i])
  {
    if rows != [] { LabeledAll(rows[..|rows| - 1]); }
  }

  /** The `agent_brier_unavailable` gate is dead: a labelled row with an agent confidence always
      yields an agent Brier score. */
  lemma AgentGateNeverFires(rows: seq<Row>)
    ensures AnyAgent(Labeled(rows)) ==> BrierScore(Forecasts(rows, AgentSource)).Some?
  {
    if AnyAgent(Labeled(rows)) {
      LabeledAll(rows);
      LabeledForecasts(rows, AgentSource);
      var i :| 0 <= i < |Labeled(rows)| && Labeled(rows)[i].agentConfidence.Some?;
      ForecastsNotEmpty(Labeled(rows), AgentSource, i);
    }
  }
}
