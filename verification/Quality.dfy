/** The snapshot quality gate (src/trading/data/quality.py) as a lattice meet of its checks. */
module Quality {
  import opened Wrappers
  import opened Ordering
  import opened Prices
  import D = Decimals

  datatype State = Invalid | Stale | Degraded | Valid

  function Rank(s: State): nat {
    match s
    case Invalid => 0
    case Stale => 1
    case Degraded => 2
    case Valid => 3
  }

  function Worse(a: State, b: State): State { if Rank(a) <= Rank(b) then a else b }

  datatype Code =
    | DataInvalid | DataStale | DataDegraded | DepthInsufficient | PriceUnavailable | OutsideSession
    | ConfigUnverified | WarmupIncomplete | ClockDrift | SpreadTooWide | SnapshotMismatch

  datatype Report = Report(
    state: State, ageMs: int, warmup: bool, source: string, reasons: seq<Code>, driftMs: int)

  /** What the report model enforces on construction. */
  predicate Constructible(r: Report) {
    && r.ageMs >= 0
    && (!r.state.Valid? ==> r.reasons != [])
    && (r.state.Valid? ==> r.warmup)
  }

  datatype Refused = ValidationError

  function Make(r: Report): Result<Report, Refused> {
    if Constructible(r) then Ok(r) else Err(ValidationError)
  }

  /** `tuple(dict.fromkeys((*left, *right)))`. */
  function Dedupe(codes: seq<Code>): (out: seq<Code>)
    ensures forall c :: c in out <==> c in codes
  {
    if codes == [] then []
    else
      var n := |codes| - 1;
      var rest := Dedupe(codes[..n]);
      assert codes == codes[..n] + [codes[n]];
      if codes[n] in rest then rest else rest + [codes[n]]
  }

  function Merged(left: Report, right: Report): Report {
    var worse := if Rank(left.state) <= Rank(right.state) then left else right;
    var warmup := left.warmup && right.warmup;
    var reasons := Dedupe(left.reasons + right.reasons);
    var unwarmed := worse.state.Valid? && !warmup;
    Report(
      if unwarmed then Invalid else worse.state,
      MaxInt(left.ageMs, right.ageMs), warmup, worse.source,
      if unwarmed then Dedupe(reasons + [WarmupIncomplete]) else reasons,
      MaxInt(left.driftMs, right.driftMs))
  }

  function Merge(left: Report, right: Report): Result<Report, Refused> { Make(Merged(left, right)) }

  // -------------------------------------------------------------------- the lattice

  /** What of a report the verdict depends on: everything but the label and the drift. */
  datatype View = View(state: State, reasons: set<Code>, warmup: bool, ageMs: int)

  function ViewOf(r: Report): View {
    View(r.state, (set c | c in r.reasons), r.warmup, r.ageMs)
  }

  function Meet(a: View, b: View): View {
    View(Worse(a.state, b.state), a.reasons + b.reasons, a.warmup && b.warmup, MaxInt(a.ageMs, b.ageMs))
  }

  lemma MeetLaws(a: View, b: View, c: View)
    ensures Meet(a, b) == Meet(b, a)
    ensures Meet(a, Meet(b, c)) == Meet(Meet(a, b), c)
    ensures Meet(a, a) == a
  {
  }

  /** On reports that can exist, merging is the meet and never fails. */
  lemma MergeIsMeet(left: Report, right: Report)
    requires Constructible(left) && Constructible(right)
    ensures Merge(left, right).Ok?
    ensures ViewOf(Merge(left, right).value) == Meet(ViewOf(left), ViewOf(right))
    ensures Merge(left, right).value.driftMs == MaxInt(left.driftMs, right.driftMs)
  {
    if left.reasons != [] { assert left.reasons[0] in left.reasons + right.reasons; }
    if right.reasons != [] { assert right.reasons[0] in left.reasons + right.reasons; }
  }

  function MeetAll(base: View, views: seq<View>): View {
    if views == [] then base else Meet(MeetAll(base, views[..|views| - 1]), views[|views| - 1])
  }

  lemma {:induction false} MeetAllAppend(base: View, xs: seq<View>, ys: seq<View>)
    ensures MeetAll(base, xs + ys) == MeetAll(MeetAll(base, xs), ys)
  {
    if ys == [] {
      assert xs + ys == xs;
    } else {
      var n := |ys| - 1;
      assert (xs + ys)[..|xs + ys| - 1] == xs + ys[..n];
      MeetAllAppend(base, xs, ys[..n]);
    }
  }

  lemma {:induction false} MeetAllFrom(base: View, extra: View, views: seq<View>)
    ensures MeetAll(Meet(base, extra), views) == Meet(MeetAll(base, views), extra)
  {
    if views != [] {
      var n := |views| - 1;
      MeetAllFrom(base, extra, views[..n]);
      MeetLaws(MeetAll(base, views[..n]), extra, views[n]);
      MeetLaws(MeetAll(base, views[..n]), views[n], extra);
      MeetLaws(extra, views[n], extra);
    }
  }

  /** A check can be pulled out of the middle and merged last. */
  lemma MeetAllPull(base: View, xs: seq<View>, v: View, ys: seq<View>)
    ensures MeetAll(base, xs + [v] + ys) == Meet(MeetAll(base, xs + ys), v)
  {
    MeetAllAppend(base, xs + [v], ys);
    MeetAllAppend(base, xs, [v]);
    assert [v][..0] == [];
    MeetAllAppend(base, xs, ys);
    MeetAllFrom(MeetAll(base, xs), v, ys);
  }

  lemma CutAt<T>(xs: seq<T>, j: nat)
    requires j < |xs|
    ensures xs == xs[..j] + [xs[j]] + xs[j + 1..]
  {
  }

  lemma MeetAllPullAt(base: View, views: seq<View>, j: nat)
    requires j < |views|
    ensures MeetAll(base, views) == Meet(MeetAll(base, views[..j] + views[j + 1..]), views[j])
  {
    CutAt(views, j);
    MeetAllPull(base, views[..j], views[j], views[j + 1..]);
  }

  /** Firing the same checks in another order gives the same verdict. */
  lemma {:induction false} MeetAllPermutation(base: View, xs: seq<View>, ys: seq<View>)
    requires Permutation(xs, ys)
    ensures MeetAll(base, xs) == MeetAll(base, ys)
  {
    PermutationMembers(xs, ys);
    if xs != [] {
      var j := PermutationTail(xs, ys);
      MeetAllPermutation(base, xs[1..], ys[..j] + ys[j + 1..]);
      MeetAllPullAt(base, xs, 0);
      MeetAllPullAt(base, ys, j);
      assert xs[..0] + xs[1..] == xs[1..];
    }
  }

  /** The state is the worst of the fired states, and the reasons are all of theirs. */
  lemma {:induction false} MeetAllMeans(base: View, views: seq<View>)
    ensures Rank(MeetAll(base, views).state) <= Rank(base.state)
    ensures forall i | 0 <= i < |views| :: Rank(MeetAll(base, views).state) <= Rank(views[i].state)
    ensures MeetAll(base, views).state == base.state
         || exists i :: 0 <= i < |views| && MeetAll(base, views).state == views[i].state
    ensures forall c :: c in MeetAll(base, views).reasons <==>
              c in base.reasons || exists i :: 0 <= i < |views| && c in views[i].reasons
  {
    if views != [] { MeetAllMeans(base, views[..|views| - 1]); }
  }

  /** Valid and reasonless are the same thing. */
  predicate Explained(v: View) { v.state.Valid? <==> v.reasons == {} }

  lemma {:induction false} MeetAllExplained(base: View, views: seq<View>)
    requires Explained(base) && forall i | 0 <= i < |views| :: Explained(views[i])
    ensures Explained(MeetAll(base, views))
  {
    if views != [] { MeetAllExplained(base, views[..|views| - 1]); }
  }

  // --------------------------------------------------------------- single-feed checks

  /** `max(0, int(seconds * 1000))` on instants in microseconds. */
  function AgeMs(now: int, instant: int): (age: int)
    ensures age >= 0
  {
    if now <= instant then 0 else (now - instant) / 1000
  }

  function ReportForAge(age: int, maxAge: int, warmup: bool, source: string, empty: bool): Report {
    if empty then Report(Invalid, age, warmup, source, [DataInvalid], 0)
    else if age > maxAge then Report(Stale, age, warmup, source, [DataStale], 0)
    else if age > maxAge / 2 then Report(Degraded, age, warmup, source, [DataDegraded], 0)
    else Report(Valid, age, warmup, source, [], 0)
  }

  function FeedReport(
    instant: int, count: int, now: int, maxAge: int, warmup: bool, emptySource: string): Report
  {
    ReportForAge(AgeMs(now, instant), maxAge, warmup, if count == 0 then emptySource else "fyers", count == 0)
  }

  function ChainReport(e: Event, now: int, maxAge: int): Report {
    FeedReport(e.receiveTime, e.strikeCount, now, maxAge, true, "empty_chain")
  }

  function QuoteReport(e: Event, now: int, maxAge: int, warmup: bool): Report {
    FeedReport(e.receiveTime, e.quoteCount, now, maxAge, warmup, "empty_quotes")
  }

  function BarReport(e: Event, now: int, maxAge: int, warmup: bool): Report {
    FeedReport(e.receiveTime, e.barCount, now, maxAge, warmup, "empty_bars")
  }

  function DepthReport(e: Event, now: int, maxAge: int, warmup: bool): Report {
    if e.bidCount == 0 || e.askCount == 0
    then Report(Degraded, AgeMs(now, e.receiveTime), warmup, "empty_depth", [DepthInsufficient], 0)
    else ReportForAge(AgeMs(now, e.receiveTime), maxAge, warmup, "fyers", false)
  }

  // -------------------------------------------------------------------- cross-checks

  function QuoteSpreadBps(quote: Event): Option<real> {
    match FirstRow(quote.quotes)
    case None => None
    case Some(row) =>
      var bid, ask := Positive(row.Get("bid", "bid")), Positive(row.Get("ask", "ask"));
      var last := Positive(row.Get("lp", "ltp"));
      if bid.None? || ask.None? || last.None? then None
      else Some((ask.value - bid.value) / last.value * 10_000.0)
  }

  function BpsGap(left: real, right: real): real {
    var base := if left != 0.0 then left else right;
    if base == 0.0 then 0.0 else D.Abs(left - right) / base * 10_000.0
  }

  function Cons(price: Option<real>): seq<real> { if price.Some? then [price.value] else [] }

  /** Some two sources disagree by more than the limit, in the order they are compared. */
  predicate Disagree(prices: seq<real>, limit: int) {
    exists i, j :: 0 <= i < j < |prices| && BpsGap(prices[i], prices[j]) > limit as real
  }

  datatype Session = NoSession | Unverified | InSession | OutOfSession

  datatype MarketStatus = NoStatus | StatusBlank | StatusOpen | StatusOther

  datatype Config = Config(
    minBarCount: int, minStrikeCount: int, maxClockDriftMs: int, clockDriftInvalid: bool,
    maxCrossSourceBps: int, maxSpreadBps: int)

  function When(condition: bool, report: Report): seq<Report> { if condition then [report] else [] }

  function Flag(state: State, warmup: bool, source: string, reasons: seq<Code>): Report {
    Report(state, 0, warmup, source, reasons, 0)
  }

  function SessionFlags(session: Session, warmup: bool, unverified: Report): seq<Report> {
    When(session.Unverified?, unverified)
    + When(session.OutOfSession?, Flag(Invalid, warmup, "outside_session", [OutsideSession]))
  }

  function ClosedFlag(session: Session, status: MarketStatus, warmup: bool): seq<Report> {
    When(session.InSession? && status.StatusOther?, Flag(Degraded, warmup, "market_closed", [DataDegraded]))
  }

  function DriftFlag(drift: int, cfg: Config, warmup: bool): seq<Report> {
    When(drift > cfg.maxClockDriftMs,
         Flag(if cfg.clockDriftInvalid then Invalid else Degraded, warmup, "clock_drift", [ClockDrift]))
  }

  function SpreadFlag(quote: Event, cfg: Config, warmup: bool): seq<Report> {
    var spread := QuoteSpreadBps(quote);
    When(spread.Some? && spread.value > cfg.maxSpreadBps as real,
         Flag(Degraded, warmup, "wide_spread", [SpreadTooWide]))
  }

  function MismatchFlag(prices: seq<real>, cfg: Config, warmup: bool): seq<Report> {
    When(Disagree(prices, cfg.maxCrossSourceBps), Flag(Degraded, warmup, "cross_source", [SnapshotMismatch]))
  }

  /** A missing optional feed degrades the chain snapshot instead of invalidating it. */
  function Soften(r: Report, warmup: bool, source: string): Report {
    if r.state.Invalid? then Report(Degraded, r.ageMs, warmup, source, [DataDegraded], 0) else r
  }

  // ------------------------------------------------------------------ chain snapshots

  datatype Cycle = Cycle(
    chain: Event, quote: Option<Event>, bar: Option<Event>, depth: Option<Event>,
    status: MarketStatus, session: Session, cfg: Config, warmupComplete: bool,
    chainMaxAge: int, quoteMaxAge: int, barMaxAge: int, depthMaxAge: int)
  {
    function Warmup(): bool {
      && warmupComplete && chain.strikeCount >= cfg.minStrikeCount
      && (bar.Some? ==> bar.value.barCount >= cfg.minBarCount)
    }

    function DriftMs(): int { AgeMs(chain.receiveTime, chain.eventTime) }

    function SourcePrices(): seq<real> {
      Cons(ChainSpot(chain)) + (if quote.Some? then Cons(QuoteLast(quote.value)) else [])
      + (if bar.Some? then Cons(BarClose(bar.value)) else [])
    }
  }

  function QuoteChecks(c: Cycle, now: int): seq<Report> {
    if c.quote.None? then []
    else [Soften(QuoteReport(c.quote.value, now, c.quoteMaxAge, true), c.Warmup(), "missing_quotes")]
         + SpreadFlag(c.quote.value, c.cfg, c.Warmup())
  }

  function BarChecks(c: Cycle, now: int): seq<Report> {
    if c.bar.None? then []
    else [Soften(BarReport(c.bar.value, now, c.barMaxAge, true), c.Warmup(), "missing_bars")]
  }

  function DepthChecks(depth: Option<Event>, now: int, maxAge: int, warmup: bool): seq<Report> {
    if depth.None? then [] else [DepthReport(depth.value, now, maxAge, warmup)]
  }

  function PriceFlag(price: Option<real>, warmup: bool): seq<Report> {
    When(price.None?, Flag(Invalid, warmup, "price_unavailable", [PriceUnavailable]))
  }

  function WarmupFlag(warmup: bool): seq<Report> {
    When(!warmup, Flag(Invalid, false, "warmup", [WarmupIncomplete]))
  }

  /** Price, session, warm-up and clock: checks that do not look at the age of a feed. */
  function CoreChecks(c: Cycle): seq<Report> {
    PriceFlag(ResolveLastPrice(c.chain, c.quote, c.bar), c.Warmup())
    + SessionFlags(c.session, c.Warmup(), COMBINED_UNVERIFIED)
    + WarmupFlag(c.Warmup())
    + DriftFlag(c.DriftMs(), c.cfg, c.Warmup())
  }

  function FeedChecks(c: Cycle, now: int): seq<Report> {
    QuoteChecks(c, now) + BarChecks(c, now) + DepthChecks(c.depth, now, c.depthMaxAge, true)
  }

  function MarketChecks(c: Cycle): seq<Report> {
    ClosedFlag(c.session, c.status, c.Warmup()) + MismatchFlag(c.SourcePrices(), c.cfg, c.Warmup())
  }

  /** Every check the combined gate fires, in its order. */
  function FiredCombined(c: Cycle, now: int): seq<Report> {
    CoreChecks(c) + FeedChecks(c, now) + MarketChecks(c)
  }

  const COMBINED_UNVERIFIED :=
    Flag(Invalid, false, "session_unverified", [ConfigUnverified, OutsideSession])

  function Views(reports: seq<Report>): (views: seq<View>)
    ensures |views| == |reports|
    ensures forall i | 0 <= i < |reports| :: views[i] == ViewOf(reports[i])
  {
    seq(|reports|, i requires 0 <= i < |reports| => ViewOf(reports[i]))
  }

  /** The verdict the checks amount to, independent of how they are merged. */
  function Verdict(c: Cycle, now: int): View {
    MeetAll(ViewOf(ChainReport(c.chain, now, c.chainMaxAge)), Views(FiredCombined(c, now)))
  }

  // ---------------------------------------------------------------- the gate's own steps

  /** What a report shows, if it can exist. */
  function Seen(q: Report): Option<View> {
    if Constructible(q) then Some(ViewOf(q)) else None
  }

  /** After some steps the report shows the meet of what has fired so far. */
  ghost predicate Shows(q: Report, base: View, fired: seq<Report>) {
    Seen(q) == Some(MeetAll(base, Views(fired)))
  }

  lemma ViewsAppend(xs: seq<Report>, ys: seq<Report>)
    ensures Views(xs + ys) == Views(xs) + Views(ys)
  {
  }

  /** One merge advances the meet by one check. A flag takes over the age reached so far. */
  lemma MergeAdvances(q: Report, base: View, fired: seq<Report>, r: Report, merged: Report)
    requires Shows(q, base, fired) && Constructible(merged)
    requires merged == r || (merged == r.(ageMs := q.ageMs, driftMs := merged.driftMs) && r.ageMs == 0)
    ensures Merge(q, merged).Ok? && Shows(Merge(q, merged).value, base, fired + [r])
    ensures Merge(q, merged).value.driftMs == MaxInt(q.driftMs, merged.driftMs)
  {
    MergeIsMeet(q, merged);
    ViewsAppend(fired, [r]);
    assert Views([r]) == [ViewOf(r)];
    MeetAllAppend(base, Views(fired), [ViewOf(r)]);
    assert [ViewOf(r)][..0] == [];
    assert Meet(ViewOf(q), ViewOf(merged)) == Meet(ViewOf(q), ViewOf(r));
  }

  /** `if condition: quality = _merge(quality, _report(..., age_ms=quality.age_ms))`. */
  method Fire(q: Report, condition: bool, flag: Report, ghost base: View, ghost fired: seq<Report>)
    returns (r: Report, ghost more: seq<Report>)
    requires Shows(q, base, fired) && q.driftMs >= 0
    requires flag.ageMs == 0 && flag.driftMs == 0 && (condition ==> Constructible(flag))
    ensures more == fired + When(condition, flag)
    ensures Shows(r, base, more) && r.driftMs == q.driftMs
  {
    more := fired + When(condition, flag);
    if condition {
      MergeAdvances(q, base, fired, flag, flag.(ageMs := q.ageMs));
      r := Merge(q, flag.(ageMs := q.ageMs)).value;
    } else {
      assert more == fired;
      r := q;
    }
  }

  /** `quality = _merge(quality, feed_report)`. */
  method MergeFeed(q: Report, report: Report, ghost base: View, ghost fired: seq<Report>)
    returns (r: Report, ghost more: seq<Report>)
    requires Shows(q, base, fired) && q.driftMs >= 0
    requires Constructible(report) && report.driftMs == 0
    ensures more == fired + [report]
    ensures Shows(r, base, more) && r.driftMs == q.driftMs
  {
    more := fired + [report];
    MergeAdvances(q, base, fired, report, report);
    r := Merge(q, report).value;
  }

  method CheckSession(
    q: Report, session: Session, w: bool, unverified: Report, ghost base: View, ghost fired: seq<Report>)
    returns (r: Report, ghost more: seq<Report>)
    requires Shows(q, base, fired) && q.driftMs >= 0
    requires unverified.ageMs == 0 && unverified.driftMs == 0 && Constructible(unverified)
    ensures more == fired + SessionFlags(session, w, unverified)
    ensures Shows(r, base, more) && r.driftMs == q.driftMs
  {
    r, more := Fire(q, session.Unverified?, unverified, base, fired);
    r, more := Fire(r, session.OutOfSession?, Flag(Invalid, w, "outside_session", [OutsideSession]), base, more);
    assert more == fired + SessionFlags(session, w, unverified);
  }

  /** The drift is recorded either way; beyond the limit it is also a check of its own. */
  method CheckDrift(
    q: Report, drift: int, cfg: Config, w: bool, ghost base: View, ghost fired: seq<Report>)
    returns (r: Report, ghost more: seq<Report>)
    requires Shows(q, base, fired) && q.driftMs == 0 && drift >= 0
    ensures more == fired + DriftFlag(drift, cfg, w)
    ensures Shows(r, base, more) && r.driftMs == drift
  {
    more := fired + DriftFlag(drift, cfg, w);
    if drift > cfg.maxClockDriftMs {
      var flag := Flag(if cfg.clockDriftInvalid then Invalid else Degraded, w, "clock_drift", [ClockDrift]);
      var merged := flag.(ageMs := q.ageMs, driftMs := drift);
      MergeAdvances(q, base, fired, flag, merged);
      r := Merge(q, merged).value;
    } else {
      assert more == fired;
      r := q.(driftMs := drift);
    }
  }

  method CheckQuote(c: Cycle, now: int, q: Report, ghost base: View, ghost fired: seq<Report>)
    returns (r: Report, ghost more: seq<Report>)
    requires Shows(q, base, fired) && q.driftMs >= 0
    ensures more == fired + QuoteChecks(c, now)
    ensures Shows(r, base, more) && r.driftMs == q.driftMs
  {
    r, more := q, fired;
    if c.quote.Some? {
      var report := QuoteReport(c.quote.value, now, c.quoteMaxAge, true);
      r, more := MergeFeed(q, Soften(report, c.Warmup(), "missing_quotes"), base, fired);
      var spread := QuoteSpreadBps(c.quote.value);
      r, more := Fire(r, spread.Some? && spread.value > c.cfg.maxSpreadBps as real,
                      Flag(Degraded, c.Warmup(), "wide_spread", [SpreadTooWide]), base, more);
    }
    assert more == fired + QuoteChecks(c, now);
  }

  method CheckBar(c: Cycle, now: int, q: Report, ghost base: View, ghost fired: seq<Report>)
    returns (r: Report, ghost more: seq<Report>)
    requires Shows(q, base, fired) && q.driftMs >= 0
    ensures more == fired + BarChecks(c, now)
    ensures Shows(r, base, more) && r.driftMs == q.driftMs
  {
    r, more := q, fired;
    if c.bar.Some? {
      var report := BarReport(c.bar.value, now, c.barMaxAge, true);
      r, more := MergeFeed(q, Soften(report, c.Warmup(), "missing_bars"), base, fired);
    }
    assert more == fired + BarChecks(c, now);
  }

  method CheckDepth(
    depth: Option<Event>, now: int, maxAge: int, q: Report, ghost base: View, ghost fired: seq<Report>)
    returns (r: Report, ghost more: seq<Report>)
    requires Shows(q, base, fired) && q.driftMs >= 0
    ensures more == fired + DepthChecks(depth, now, maxAge, true)
    ensures Shows(r, base, more) && r.driftMs == q.driftMs
  {
    r, more := q, fired;
    if depth.Some? {
      r, more := MergeFeed(q, DepthReport(depth.value, now, maxAge, true), base, fired);
    }
    assert more == fired + DepthChecks(depth, now, maxAge, true);
  }

  method CheckCore(c: Cycle, q: Report, ghost base: View) returns (r: Report, ghost fired: seq<Report>)
    requires Shows(q, base, []) && q.driftMs == 0
    ensures fired == CoreChecks(c)
    ensures Shows(r, base, fired) && r.driftMs == c.DriftMs()
  {
    var w := c.Warmup();
    var priceless := ResolveLastPrice(c.chain, c.quote, c.bar).None?;
    r, fired := Fire(q, priceless, Flag(Invalid, w, "price_unavailable", [PriceUnavailable]), base, []);
    r, fired := CheckSession(r, c.session, w, COMBINED_UNVERIFIED, base, fired);
    r, fired := Fire(r, !w, Flag(Invalid, false, "warmup", [WarmupIncomplete]), base, fired);
    r, fired := CheckDrift(r, c.DriftMs(), c.cfg, w, base, fired);
    assert fired == CoreChecks(c);
  }

  method CheckFeeds(c: Cycle, now: int, q: Report, ghost base: View, ghost fired: seq<Report>)
    returns (r: Report, ghost more: seq<Report>)
    requires Shows(q, base, fired) && q.driftMs >= 0
    ensures more == fired + FeedChecks(c, now)
    ensures Shows(r, base, more) && r.driftMs == q.driftMs
  {
    r, more := CheckQuote(c, now, q, base, fired);
    r, more := CheckBar(c, now, r, base, more);
    r, more := CheckDepth(c.depth, now, c.depthMaxAge, r, base, more);
    AppendThree(fired, QuoteChecks(c, now), BarChecks(c, now), DepthChecks(c.depth, now, c.depthMaxAge, true));
  }

  method CheckMarket(c: Cycle, q: Report, ghost base: View, ghost fired: seq<Report>)
    returns (r: Report, ghost more: seq<Report>)
    requires Shows(q, base, fired) && q.driftMs >= 0
    ensures more == fired + MarketChecks(c)
    ensures Shows(r, base, more) && r.driftMs == q.driftMs
  {
    r, more := Fire(q, c.session.InSession? && c.status.StatusOther?,
                    Flag(Degraded, c.Warmup(), "market_closed", [DataDegraded]), base, fired);
    r, more := Fire(r, Disagree(c.SourcePrices(), c.cfg.maxCrossSourceBps),
                    Flag(Degraded, c.Warmup(), "cross_source", [SnapshotMismatch]), base, more);
    assert more == fired + MarketChecks(c);
  }

  /** The reassignment chain never fails and ends at the meet of everything that fired. */
  method AssessCombined(c: Cycle, now: int) returns (q: Report)
    ensures Constructible(q) && ViewOf(q) == Verdict(c, now)
    ensures q.driftMs == c.DriftMs()
  {
    q := ChainReport(c.chain, now, c.chainMaxAge);
    ghost var base, fired: seq<Report> := ViewOf(q), [];
    q, fired := CheckCore(c, q, base);
    q, fired := CheckFeeds(c, now, q, base, fired);
    q, fired := CheckMarket(c, q, base, fired);
  }

  // ------------------------------------------------------------- facts about the verdict

  ghost predicate AllExplained(reports: seq<Report>) {
    forall r | r in reports :: r.state.Valid? <==> r.reasons == []
  }

  lemma ExplainedAppend(xs: seq<Report>, ys: seq<Report>)
    requires AllExplained(xs) && AllExplained(ys)
    ensures AllExplained(xs + ys)
  {
  }

  lemma CoreExplained(c: Cycle)
    ensures AllExplained(CoreChecks(c))
  {
    var w := c.Warmup();
    var price, session := PriceFlag(ResolveLastPrice(c.chain, c.quote, c.bar), w),
                          SessionFlags(c.session, w, COMBINED_UNVERIFIED);
    ExplainedAppend(price, session);
    ExplainedAppend(price + session, WarmupFlag(w));
    ExplainedAppend(price + session + WarmupFlag(w), DriftFlag(c.DriftMs(), c.cfg, w));
  }

  lemma FeedsExplained(c: Cycle, now: int)
    ensures AllExplained(FeedChecks(c, now))
  {
    var depth := DepthChecks(c.depth, now, c.depthMaxAge, true);
    ExplainedAppend(QuoteChecks(c, now), BarChecks(c, now));
    ExplainedAppend(QuoteChecks(c, now) + BarChecks(c, now), depth);
  }

  lemma FiredExplained(c: Cycle, now: int)
    ensures AllExplained(FiredCombined(c, now))
  {
    CoreExplained(c);
    FeedsExplained(c, now);
    ExplainedAppend(CoreChecks(c), FeedChecks(c, now));
    ExplainedAppend(CoreChecks(c) + FeedChecks(c, now), MarketChecks(c));
  }

  lemma ReasonedExplained(r: Report)
    requires r.state.Valid? <==> r.reasons == []
    ensures Explained(ViewOf(r))
  {
    if r.reasons != [] { assert r.reasons[0] in ViewOf(r).reasons; }
  }

  /** A snapshot is VALID exactly when nothing is held against it. */
  lemma ValidIffNoReasons(c: Cycle, now: int)
    ensures Verdict(c, now).state.Valid? <==> Verdict(c, now).reasons == {}
  {
    FiredExplained(c, now);
    var fired := FiredCombined(c, now);
    forall i | 0 <= i < |fired| ensures Explained(Views(fired)[i]) {
      assert fired[i] in fired;
      ReasonedExplained(fired[i]);
    }
    ReasonedExplained(ChainReport(c.chain, now, c.chainMaxAge));
    MeetAllExplained(ViewOf(ChainReport(c.chain, now, c.chainMaxAge)), Views(fired));
  }

  lemma OneInvalid(base: View, fired: seq<Report>, r: Report)
    requires r in fired && r.state.Invalid?
    ensures MeetAll(base, Views(fired)).state.Invalid?
  {
    var i :| 0 <= i < |fired| && fired[i] == r;
    MeetAllMeans(base, Views(fired));
    assert Views(fired)[i].state.Invalid?;
  }

  lemma FiredInvalid(c: Cycle, now: int, r: Report)
    requires r in FiredCombined(c, now) && r.state.Invalid?
    ensures Verdict(c, now).state.Invalid?
  {
    OneInvalid(ViewOf(ChainReport(c.chain, now, c.chainMaxAge)), FiredCombined(c, now), r);
  }

  /** Incomplete warm-up, a missing price or a closed session always invalidate. */
  lemma HardFailuresInvalidate(c: Cycle, now: int)
    ensures !c.Warmup() ==> Verdict(c, now).state.Invalid?
    ensures ResolveLastPrice(c.chain, c.quote, c.bar).None? ==> Verdict(c, now).state.Invalid?
    ensures c.session.Unverified? || c.session.OutOfSession? ==> Verdict(c, now).state.Invalid?
    ensures c.chain.strikeCount == 0 ==> Verdict(c, now).state.Invalid?
  {
    var w := c.Warmup();
    if !w { FiredInvalid(c, now, Flag(Invalid, false, "warmup", [WarmupIncomplete])); }
    if ResolveLastPrice(c.chain, c.quote, c.bar).None? {
      FiredInvalid(c, now, Flag(Invalid, w, "price_unavailable", [PriceUnavailable]));
    }
    if c.session.Unverified? { FiredInvalid(c, now, COMBINED_UNVERIFIED); }
    if c.session.OutOfSession? {
      FiredInvalid(c, now, Flag(Invalid, w, "outside_session", [OutsideSession]));
    }
    MeetAllMeans(ViewOf(ChainReport(c.chain, now, c.chainMaxAge)), Views(FiredCombined(c, now)));
  }

  lemma {:induction false} MeetAllMonotone(a: View, b: View, xs: seq<View>, ys: seq<View>)
    requires Rank(b.state) <= Rank(a.state) && |xs| == |ys|
    requires forall i | 0 <= i < |xs| :: Rank(ys[i].state) <= Rank(xs[i].state)
    ensures Rank(MeetAll(b, ys).state) <= Rank(MeetAll(a, xs).state)
  {
    if xs != [] {
      MeetAllMonotone(a, b, xs[..|xs| - 1], ys[..|ys| - 1]);
    }
  }

  ghost predicate NoBetter(later: seq<Report>, now: seq<Report>) {
    && |later| == |now|
    && forall i | 0 <= i < |now| :: Rank(later[i].state) <= Rank(now[i].state)
  }

  lemma NoBetterAround(front: seq<Report>, later: seq<Report>, now: seq<Report>, back: seq<Report>)
    requires NoBetter(later, now)
    ensures NoBetter(front + later + back, front + now + back)
  {
  }

  lemma MeetNoBetter(laterBase: Report, nowBase: Report, later: seq<Report>, now: seq<Report>)
    requires Rank(laterBase.state) <= Rank(nowBase.state) && NoBetter(later, now)
    ensures Rank(MeetAll(ViewOf(laterBase), Views(later)).state) <= Rank(MeetAll(ViewOf(nowBase), Views(now)).state)
  {
    MeetAllMonotone(ViewOf(nowBase), ViewOf(laterBase), Views(now), Views(later));
  }

  /** With the events and the session verdict fixed, waiting never improves the state. */
  lemma StateNeverImproves(c: Cycle, now: int, later: int)
    requires now <= later
    ensures Rank(Verdict(c, later).state) <= Rank(Verdict(c, now).state)
  {
    FeedsNoBetter(c, now, later);
    NoBetterAround(CoreChecks(c), FeedChecks(c, later), FeedChecks(c, now), MarketChecks(c));
    MeetNoBetter(ChainReport(c.chain, later, c.chainMaxAge), ChainReport(c.chain, now, c.chainMaxAge),
                 FiredCombined(c, later), FiredCombined(c, now));
  }

  lemma BarNoBetter(c: Cycle, now: int, later: int)
    requires now <= later
    ensures NoBetter(BarChecks(c, later), BarChecks(c, now))
  {
  }

  lemma DepthNoBetter(depth: Option<Event>, now: int, later: int, maxAge: int, warmup: bool)
    requires now <= later
    ensures NoBetter(DepthChecks(depth, later, maxAge, warmup), DepthChecks(depth, now, maxAge, warmup))
  {
  }

  lemma FeedsNoBetter(c: Cycle, now: int, later: int)
    requires now <= later
    ensures NoBetter(FeedChecks(c, later), FeedChecks(c, now))
  {
    BarNoBetter(c, now, later);
    DepthNoBetter(c.depth, now, later, c.depthMaxAge, true);
  }

  /** Whatever order the checks were merged in, the verdict would be the same. */
  lemma MergeOrderIrrelevant(c: Cycle, now: int, shuffled: seq<View>)
    requires Permutation(Views(FiredCombined(c, now)), shuffled)
    ensures MeetAll(ViewOf(ChainReport(c.chain, now, c.chainMaxAge)), shuffled) == Verdict(c, now)
  {
    MeetAllPermutation(ViewOf(ChainReport(c.chain, now, c.chainMaxAge)),
                       Views(FiredCombined(c, now)), shuffled);
  }

  // ------------------------------------------------------------------ index snapshots

  datatype IndexCycle = IndexCycle(
    quote: Event, bar: Option<Event>, depth: Option<Event>, status: MarketStatus, session: Session,
    cfg: Config, quoteMaxAge: int, barMaxAge: int, depthMaxAge: int)
  {
    function Warmup(): bool { bar.Some? ==> bar.value.barCount >= cfg.minBarCount }

    function DriftMs(): int { AgeMs(quote.receiveTime, quote.eventTime) }

    function SourcePrices(): seq<real> {
      Cons(QuoteLast(quote)) + (if bar.Some? then Cons(BarClose(bar.value)) else [])
    }
  }

  function IndexUnverified(warmup: bool): Report {
    Flag(Invalid, warmup, "session_unverified", [ConfigUnverified])
  }

  function IndexBase(c: IndexCycle, now: int): Report {
    QuoteReport(c.quote, now, c.quoteMaxAge, c.Warmup())
  }

  function IndexCore(c: IndexCycle): seq<Report> {
    PriceFlag(IndexLast(c.quote, c.bar), c.Warmup())
    + SessionFlags(c.session, c.Warmup(), IndexUnverified(c.Warmup()))
    + WarmupFlag(c.Warmup())
    + SpreadFlag(c.quote, c.cfg, c.Warmup())
  }

  function IndexFeeds(c: IndexCycle, now: int): seq<Report> {
    (if c.bar.Some? then [BarReport(c.bar.value, now, c.barMaxAge, c.Warmup())] else [])
    + DepthChecks(c.depth, now, c.depthMaxAge, c.Warmup())
  }

  function IndexMarket(c: IndexCycle): seq<Report> {
    ClosedFlag(c.session, c.status, c.Warmup())
    + DriftFlag(c.DriftMs(), c.cfg, c.Warmup())
    + MismatchFlag(c.SourcePrices(), c.cfg, c.Warmup())
  }

  function IndexVerdict(c: IndexCycle, now: int): View {
    MeetAll(ViewOf(IndexBase(c, now)), Views(IndexCore(c) + IndexFeeds(c, now) + IndexMarket(c)))
  }

  /** Some feed would be reported VALID by age alone. */
  predicate SomeFeedFresh(c: IndexCycle, now: int) {
    || IndexBase(c, now).state.Valid?
    || (c.bar.Some? && BarReport(c.bar.value, now, c.barMaxAge, c.Warmup()).state.Valid?)
    || (c.depth.Some? && DepthReport(c.depth.value, now, c.depthMaxAge, c.Warmup()).state.Valid?)
  }

  method CheckIndexCore(c: IndexCycle, q: Report, ghost base: View)
    returns (r: Report, ghost fired: seq<Report>)
    requires Shows(q, base, []) && q.driftMs == 0
    ensures fired == IndexCore(c)
    ensures Shows(r, base, fired) && r.driftMs == 0
  {
    var w := c.Warmup();
    r, fired := Fire(q, IndexLast(c.quote, c.bar).None?,
                     Flag(Invalid, w, "price_unavailable", [PriceUnavailable]), base, []);
    r, fired := CheckSession(r, c.session, w, IndexUnverified(w), base, fired);
    r, fired := Fire(r, !w, Flag(Invalid, false, "warmup", [WarmupIncomplete]), base, fired);
    var spread := QuoteSpreadBps(c.quote);
    r, fired := Fire(r, spread.Some? && spread.value > c.cfg.maxSpreadBps as real,
                     Flag(Degraded, w, "wide_spread", [SpreadTooWide]), base, fired);
    AppendFour([], PriceFlag(IndexLast(c.quote, c.bar), w), SessionFlags(c.session, w, IndexUnverified(w)),
               WarmupFlag(w), SpreadFlag(c.quote, c.cfg, w));
    assert [] + IndexCore(c) == IndexCore(c);
  }

  /** A feed report that cannot be constructed aborts the whole gate. */
  method CheckIndexFeeds(c: IndexCycle, now: int, q: Report, ghost base: View, ghost fired: seq<Report>)
    returns (r: Result<Report, Refused>, ghost more: seq<Report>)
    requires Shows(q, base, fired) && q.driftMs == 0
    ensures r.Err? <==> exists f :: f in IndexFeeds(c, now) && !Constructible(f)
    ensures more == fired + IndexFeeds(c, now)
    ensures r.Ok? ==> Shows(r.value, base, more) && r.value.driftMs == 0
  {
    more := fired + IndexFeeds(c, now);
    var report := q;
    ghost var seen := fired;
    if c.bar.Some? {
      var bar := BarReport(c.bar.value, now, c.barMaxAge, c.Warmup());
      assert bar in IndexFeeds(c, now);
      if Make(bar).Err? {
        return Err(ValidationError), more;
      }
      report, seen := MergeFeed(report, bar, base, seen);
    }
    if c.depth.Some? {
      var depth := DepthReport(c.depth.value, now, c.depthMaxAge, c.Warmup());
      assert depth in IndexFeeds(c, now);
      if Make(depth).Err? {
        return Err(ValidationError), more;
      }
      report, seen := MergeFeed(report, depth, base, seen);
    }
    assert seen == more;
    r := Ok(report);
  }

  /** The index gate records a drift only beyond its limit. */
  method CheckIndexDrift(c: IndexCycle, q: Report, ghost base: View, ghost fired: seq<Report>)
    returns (r: Report, ghost more: seq<Report>)
    requires Shows(q, base, fired) && q.driftMs == 0
    ensures more == fired + DriftFlag(c.DriftMs(), c.cfg, c.Warmup())
    ensures Shows(r, base, more)
    ensures r.driftMs == if c.DriftMs() > c.cfg.maxClockDriftMs then c.DriftMs() else 0
  {
    r, more := q, fired;
    if c.DriftMs() > c.cfg.maxClockDriftMs {
      r, more := CheckDrift(q, c.DriftMs(), c.cfg, c.Warmup(), base, fired);
    } else {
      assert fired + [] == fired;
    }
  }

  method CheckIndexMarket(c: IndexCycle, q: Report, ghost base: View, ghost fired: seq<Report>)
    returns (r: Report)
    requires Shows(q, base, fired) && q.driftMs == 0
    ensures Shows(r, base, fired + IndexMarket(c))
    ensures r.driftMs == if c.DriftMs() > c.cfg.maxClockDriftMs then c.DriftMs() else 0
  {
    var w := c.Warmup();
    ghost var more;
    r, more := Fire(q, c.session.InSession? && c.status.StatusOther?,
                    Flag(Degraded, w, "market_closed", [DataDegraded]), base, fired);
    r, more := CheckIndexDrift(c, r, base, more);
    r, more := Fire(r, Disagree(c.SourcePrices(), c.cfg.maxCrossSourceBps),
                    Flag(Degraded, w, "cross_source", [SnapshotMismatch]), base, more);
    AppendThree(fired, ClosedFlag(c.session, c.status, w), DriftFlag(c.DriftMs(), c.cfg, w),
                MismatchFlag(c.SourcePrices(), c.cfg, w));
  }

  lemma FeedsRefusedIffFresh(c: IndexCycle, now: int)
    ensures !Constructible(IndexBase(c, now)) || (exists f :: f in IndexFeeds(c, now) && !Constructible(f))
       <==> !c.Warmup() && SomeFeedFresh(c, now)
  {
    if c.bar.Some? { assert BarReport(c.bar.value, now, c.barMaxAge, c.Warmup()) in IndexFeeds(c, now); }
    if c.depth.Some? {
      assert DepthReport(c.depth.value, now, c.depthMaxAge, c.Warmup()) in IndexFeeds(c, now);
    }
  }

  /** The index gate reports the meet of its checks, except that it fails outright exactly when
      warm-up is incomplete while some feed is fresh: a VALID report without warm-up cannot exist. */
  method AssessIndex(c: IndexCycle, now: int) returns (r: Result<Report, Refused>)
    ensures r.Err? <==> !c.Warmup() && SomeFeedFresh(c, now)
    ensures r.Ok? ==> Constructible(r.value) && ViewOf(r.value) == IndexVerdict(c, now)
    ensures r.Ok? ==> r.value.driftMs == if c.DriftMs() > c.cfg.maxClockDriftMs then c.DriftMs() else 0
  {
    FeedsRefusedIffFresh(c, now);
    var q := IndexBase(c, now);
    if Make(q).Err? {
      return Err(ValidationError);
    }
    ghost var base := ViewOf(q);
    var core;
    ghost var fired;
    core, fired := CheckIndexCore(c, q, base);
    var fed;
    fed, fired := CheckIndexFeeds(c, now, core, base, fired);
    if fed.Err? {
      return Err(ValidationError);
    }
    q := CheckIndexMarket(c, fed.value, base, fired);
    r := Ok(q);
  }

  function Received(quoteCount: int, barCount: int): Event {
    Event(0, 0, NotAList, 0, NotAList, quoteCount, NotAList, barCount, NotAList, 0, NotAList, 0)
  }

  /** An index quote received just now, with one bar behind it where two are required. */
  function ColdIndex(): IndexCycle {
    IndexCycle(Received(1, 0), Some(Received(0, 1)), None, NoStatus, InSession,
               Config(2, 0, 1000, false, 50, 50), 60_000, 60_000, 60_000)
  }

  /** Such a cycle gets no report at all. */
  lemma ColdIndexIsRefused()
    ensures !ColdIndex().Warmup() && SomeFeedFresh(ColdIndex(), 0)
  {
    assert IndexBase(ColdIndex(), 0).state.Valid?;
  }

  /** A missing index price or incomplete warm-up always invalidate what is reported. */
  lemma IndexHardFailuresInvalidate(c: IndexCycle, now: int)
    ensures IndexLast(c.quote, c.bar).None? ==> IndexVerdict(c, now).state.Invalid?
    ensures !c.Warmup() ==> IndexVerdict(c, now).state.Invalid?
  {
    var fired := IndexCore(c) + IndexFeeds(c, now) + IndexMarket(c);
    if IndexLast(c.quote, c.bar).None? {
      OneInvalid(ViewOf(IndexBase(c, now)), fired, IndexCore(c)[0]);
    }
    if !c.Warmup() {
      var flag := Flag(Invalid, false, "warmup", [WarmupIncomplete]);
      assert flag in IndexCore(c);
      OneInvalid(ViewOf(IndexBase(c, now)), fired, flag);
    }
  }

  lemma IndexFeedsNoBetter(c: IndexCycle, now: int, later: int)
    requires now <= later
    ensures NoBetter(IndexFeeds(c, later), IndexFeeds(c, now))
  {
    DepthNoBetter(c.depth, now, later, c.depthMaxAge, c.Warmup());
  }

  /** Nor does the state of an index snapshot improve by waiting. */
  lemma IndexStateNeverImproves(c: IndexCycle, now: int, later: int)
    requires now <= later
    ensures Rank(IndexVerdict(c, later).state) <= Rank(IndexVerdict(c, now).state)
  {
    IndexFeedsNoBetter(c, now, later);
    NoBetterAround(IndexCore(c), IndexFeeds(c, later), IndexFeeds(c, now), IndexMarket(c));
    MeetNoBetter(IndexBase(c, later), IndexBase(c, now), IndexCore(c) + IndexFeeds(c, later) + IndexMarket(c),
                 IndexCore(c) + IndexFeeds(c, now) + IndexMarket(c));
  }
}
