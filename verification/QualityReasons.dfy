/** What the gates hold against a cycle, code by code, in terms of receive times, counts, prices and
    limits alone (src/trading/data/quality.py:69-106, 268-622). */
module QualityReasons {
  import opened Wrappers
  import opened Prices
  import opened Quality

  // ------------------------------------------------------------------------ feeds

  /** A feed as the gates see it: when it was received, how old it may be, whether it holds anything. */
  datatype Feed = Feed(received: int, limitMs: int, filled: bool)

  /** Older than a limit in whole milliseconds; the age of a future event is zero. */
  predicate Late(received: int, limitMs: int, now: int) {
    limitMs < 0 || now - received >= (limitMs + 1) * 1000
  }

  predicate Stales(f: Feed, now: int) { f.filled && Late(f.received, f.limitMs, now) }

  predicate Degrades(f: Feed, now: int) {
    f.filled && Late(f.received, f.limitMs / 2, now) && !Late(f.received, f.limitMs, now)
  }

  lemma LateIsAge(received: int, limitMs: int, now: int)
    ensures AgeMs(now, received) > limitMs <==> Late(received, limitMs, now)
  {
  }

  /** Holds something, within half its limit. */
  predicate Fresh(f: Feed, now: int) {
    f.filled && !Late(f.received, f.limitMs, now) && !Late(f.received, f.limitMs / 2, now)
  }

  function DepthFeed(depth: Event, limitMs: int): Feed {
    Feed(depth.receiveTime, limitMs, depth.bidCount != 0 && depth.askCount != 0)
  }

  function Feeds(c: Cycle): seq<Feed> {
    [Feed(c.chain.receiveTime, c.chainMaxAge, c.chain.strikeCount != 0)]
    + (if c.quote.Some? then [Feed(c.quote.value.receiveTime, c.quoteMaxAge, c.quote.value.quoteCount != 0)] else [])
    + (if c.bar.Some? then [Feed(c.bar.value.receiveTime, c.barMaxAge, c.bar.value.barCount != 0)] else [])
    + (if c.depth.Some? then [DepthFeed(c.depth.value, c.depthMaxAge)] else [])
  }

  ghost predicate SomeStales(feeds: seq<Feed>, now: int) { exists f :: f in feeds && Stales(f, now) }

  ghost predicate SomeDegrades(feeds: seq<Feed>, now: int) { exists f :: f in feeds && Degrades(f, now) }

  // ----------------------------------------------------------------------- prices

  /** Two sources are further apart than the limit, measured from the first in basis points. */
  predicate Apart(a: Option<real>, b: Option<real>, limitBps: int) {
    a.Some? && b.Some? && (if a.value < b.value then b.value - a.value else a.value - b.value) * 10_000.0
                            > limitBps as real * a.value
  }

  /** The quote's own bid and ask are further apart than the limit, measured from its last price. */
  predicate WideQuote(quote: Event, limitBps: int) {
    match FirstRow(quote.quotes)
    case None => false
    case Some(row) =>
      var bid, ask := Positive(row.Get("bid", "bid")), Positive(row.Get("ask", "ask"));
      var last := Positive(row.Get("lp", "ltp"));
      bid.Some? && ask.Some? && last.Some?
      && (ask.value - bid.value) * 10_000.0 > limitBps as real * last.value
  }

  // ----------------------------------------------------------------- the combined gate

  /** What a code says of the cycle. */
  ghost predicate Held(c: Cycle, now: int, code: Code) {
    match code
    case DataInvalid => c.chain.strikeCount == 0
    case DataStale => SomeStales(Feeds(c), now)
    case DataDegraded =>
      || SomeDegrades(Feeds(c), now)
      || (c.quote.Some? && c.quote.value.quoteCount == 0)
      || (c.bar.Some? && c.bar.value.barCount == 0)
      || (c.session.InSession? && c.status.StatusOther?)
    case DepthInsufficient => c.depth.Some? && (c.depth.value.bidCount == 0 || c.depth.value.askCount == 0)
    case PriceUnavailable => ResolveLastPrice(c.chain, c.quote, c.bar).None?
    case OutsideSession => c.session.Unverified? || c.session.OutOfSession?
    case ConfigUnverified => c.session.Unverified?
    case WarmupIncomplete =>
      || !c.warmupComplete || c.chain.strikeCount < c.cfg.minStrikeCount
      || (c.bar.Some? && c.bar.value.barCount < c.cfg.minBarCount)
    case ClockDrift => Late(c.chain.eventTime, c.cfg.maxClockDriftMs, c.chain.receiveTime)
    case SpreadTooWide => c.quote.Some? && WideQuote(c.quote.value, c.cfg.maxSpreadBps)
    case SnapshotMismatch =>
      var spot := ChainSpot(c.chain);
      var last := if c.quote.Some? then QuoteLast(c.quote.value) else None;
      var close := if c.bar.Some? then BarClose(c.bar.value) else None;
      SomeApart(spot, last, close, c.cfg.maxCrossSourceBps)
  }

  /** How bad a code is; only the drift's weight is configurable. */
  function Severity(code: Code, cfg: Config): State {
    match code
    case DataInvalid => Invalid
    case PriceUnavailable => Invalid
    case OutsideSession => Invalid
    case ConfigUnverified => Invalid
    case WarmupIncomplete => Invalid
    case DataStale => Stale
    case ClockDrift => if cfg.clockDriftInvalid then Invalid else Degraded
    case _ => Degraded
  }

  // ------------------------------------------------------------ reasons of some reports

  ghost predicate Carries(reports: seq<Report>, code: Code) { exists r :: r in reports && code in r.reasons }

  lemma CarriesAppend(xs: seq<Report>, ys: seq<Report>, code: Code)
    ensures Carries(xs + ys, code) <==> Carries(xs, code) || Carries(ys, code)
  {
    if Carries(xs, code) {
      var r :| r in xs && code in r.reasons;
      assert r in xs + ys;
    }
    if Carries(ys, code) {
      var r :| r in ys && code in r.reasons;
      assert r in xs + ys;
    }
  }

  lemma WhenCarries(condition: bool, r: Report, code: Code)
    ensures Carries(When(condition, r), code) <==> condition && code in r.reasons
  {
    if condition { assert r in When(condition, r); }
  }

  lemma OneCarries(r: Report, code: Code)
    ensures Carries([r], code) <==> code in r.reasons
  {
    assert r in [r];
  }

  /** The reasons of the meet are those of the base and of what fired. */
  lemma MeetCarries(base: Report, fired: seq<Report>, code: Code)
    ensures code in MeetAll(ViewOf(base), Views(fired)).reasons <==> code in base.reasons || Carries(fired, code)
  {
    var views := Views(fired);
    MeetAllMeans(ViewOf(base), views);
    if i :| 0 <= i < |views| && code in views[i].reasons { assert fired[i] in fired; }
    if Carries(fired, code) {
      var r :| r in fired && code in r.reasons;
      var i :| 0 <= i < |fired| && fired[i] == r;
      assert code in views[i].reasons;
    }
  }

  /** A report is as bad as each of its reasons, and valid without any. */
  ghost predicate Graded(r: Report, cfg: Config) {
    && (r.reasons == [] ==> r.state.Valid?)
    && forall code | code in r.reasons :: r.state == Severity(code, cfg)
  }

  ghost predicate AllGraded(reports: seq<Report>, cfg: Config) { forall r | r in reports :: Graded(r, cfg) }

  /** The meet of graded reports is as bad as its worst reason. */
  lemma MeetGraded(base: Report, fired: seq<Report>, cfg: Config)
    requires Graded(base, cfg) && AllGraded(fired, cfg)
    ensures var v := MeetAll(ViewOf(base), Views(fired));
            && (forall code | code in v.reasons :: Rank(v.state) <= Rank(Severity(code, cfg)))
            && (v.state.Valid? || exists code :: code in v.reasons && v.state == Severity(code, cfg))
  {
    var views := Views(fired);
    var v := MeetAll(ViewOf(base), views);
    MeetAllMeans(ViewOf(base), views);
    forall code | code in v.reasons ensures Rank(v.state) <= Rank(Severity(code, cfg)) {
      if code !in base.reasons {
        var i :| 0 <= i < |views| && code in views[i].reasons;
        assert fired[i] in fired;
      }
    }
    if !v.state.Valid? {
      if v.state == base.state {
        assert base.reasons[0] in v.reasons;
      } else {
        var i :| 0 <= i < |views| && v.state == views[i].state;
        assert fired[i] in fired;
        assert fired[i].reasons[0] in views[i].reasons;
      }
    }
  }

  // ----------------------------------------------------------- reasons of the feeds

  /** The codes a feed earns by its age. */
  ghost predicate Aged(f: Feed, now: int, code: Code) {
    (code.DataStale? && Stales(f, now)) || (code.DataDegraded? && Degrades(f, now))
  }

  lemma AgeReasons(received: int, limitMs: int, now: int, warmup: bool, source: string, code: Code)
    ensures code in ReportForAge(AgeMs(now, received), limitMs, warmup, source, false).reasons
       <==> Aged(Feed(received, limitMs, true), now, code)
  {
    LateIsAge(received, limitMs, now);
    LateIsAge(received, limitMs / 2, now);
  }

  lemma FeedReasons(
    received: int, count: int, now: int, limitMs: int, warmup: bool, emptySource: string, code: Code)
    ensures code in FeedReport(received, count, now, limitMs, warmup, emptySource).reasons
       <==> (code.DataInvalid? && count == 0) || Aged(Feed(received, limitMs, count != 0), now, code)
  {
    AgeReasons(received, limitMs, now, warmup, "fyers", code);
  }

  lemma SoftenedReasons(
    received: int, count: int, now: int, limitMs: int, emptySource: string, warmup: bool, source: string, code: Code)
    ensures code in Soften(FeedReport(received, count, now, limitMs, true, emptySource), warmup, source).reasons
       <==> (code.DataDegraded? && count == 0) || Aged(Feed(received, limitMs, count != 0), now, code)
  {
    AgeReasons(received, limitMs, now, true, "fyers", code);
  }

  lemma DepthReasons(depth: Event, now: int, limitMs: int, warmup: bool, code: Code)
    ensures code in DepthReport(depth, now, limitMs, warmup).reasons
       <==> || (code.DepthInsufficient? && (depth.bidCount == 0 || depth.askCount == 0))
            || Aged(DepthFeed(depth, limitMs), now, code)
  {
    AgeReasons(depth.receiveTime, limitMs, now, warmup, "fyers", code);
  }

  lemma DepthCarries(depth: Option<Event>, now: int, limitMs: int, warmup: bool, code: Code)
    ensures Carries(DepthChecks(depth, now, limitMs, warmup), code)
       <==> && depth.Some?
            && (|| (code.DepthInsufficient? && (depth.value.bidCount == 0 || depth.value.askCount == 0))
                || Aged(DepthFeed(depth.value, limitMs), now, code))
  {
    if depth.Some? {
      DepthReasons(depth.value, now, limitMs, warmup, code);
      OneCarries(DepthReport(depth.value, now, limitMs, warmup), code);
    }
  }

  // ---------------------------------------------------------- reasons of the cross-checks

  lemma Scaled(gap: real, base: real, limit: real)
    requires base > 0.0
    ensures gap / base * 10_000.0 > limit <==> gap * 10_000.0 > limit * base
  {
    var q := gap / base;
    assert q * base == gap;
    assert (q * 10_000.0 - limit) * base == gap * 10_000.0 - limit * base;
    Signs(q * 10_000.0 - limit, base);
  }

  lemma Signs(a: real, b: real)
    requires b > 0.0
    ensures a > 0.0 <==> a * b > 0.0
  {
  }

  lemma SpreadCarries(quote: Event, cfg: Config, warmup: bool, code: Code)
    ensures Carries(SpreadFlag(quote, cfg, warmup), code)
       <==> code.SpreadTooWide? && WideQuote(quote, cfg.maxSpreadBps)
  {
    var spread := QuoteSpreadBps(quote);
    WhenCarries(spread.Some? && spread.value > cfg.maxSpreadBps as real,
                Flag(Degraded, warmup, "wide_spread", [SpreadTooWide]), code);
    if spread.Some? {
      var row := FirstRow(quote.quotes).value;
      var bid, ask := Positive(row.Get("bid", "bid")).value, Positive(row.Get("ask", "ask")).value;
      Scaled(ask - bid, Positive(row.Get("lp", "ltp")).value, cfg.maxSpreadBps as real);
    }
  }

  lemma GapIsApart(a: real, b: real, limitBps: int)
    requires a > 0.0 && b > 0.0
    ensures BpsGap(a, b) > limitBps as real <==> Apart(Some(a), Some(b), limitBps)
  {
    Scaled(if a < b then b - a else a - b, a, limitBps as real);
  }

  lemma DriftCarries(drift: int, cfg: Config, warmup: bool, code: Code)
    ensures Carries(DriftFlag(drift, cfg, warmup), code) <==> code.ClockDrift? && drift > cfg.maxClockDriftMs
  {
    WhenCarries(drift > cfg.maxClockDriftMs,
                Flag(if cfg.clockDriftInvalid then Invalid else Degraded, warmup, "clock_drift", [ClockDrift]), code);
  }

  lemma ClosedCarries(session: Session, status: MarketStatus, warmup: bool, code: Code)
    ensures Carries(ClosedFlag(session, status, warmup), code)
       <==> code.DataDegraded? && session.InSession? && status.StatusOther?
  {
    WhenCarries(session.InSession? && status.StatusOther?,
                Flag(Degraded, warmup, "market_closed", [DataDegraded]), code);
  }

  lemma SessionCarries(session: Session, warmup: bool, unverified: Report, code: Code)
    ensures Carries(SessionFlags(session, warmup, unverified), code)
       <==> || (session.Unverified? && code in unverified.reasons)
            || (session.OutOfSession? && code.OutsideSession?)
  {
    var out := Flag(Invalid, warmup, "outside_session", [OutsideSession]);
    WhenCarries(session.Unverified?, unverified, code);
    WhenCarries(session.OutOfSession?, out, code);
    CarriesAppend(When(session.Unverified?, unverified), When(session.OutOfSession?, out), code);
  }

  lemma PriceCarries(price: Option<real>, warmup: bool, code: Code)
    ensures Carries(PriceFlag(price, warmup), code) <==> code.PriceUnavailable? && price.None?
  {
    WhenCarries(price.None?, Flag(Invalid, warmup, "price_unavailable", [PriceUnavailable]), code);
  }

  lemma WarmupCarries(warmup: bool, code: Code)
    ensures Carries(WarmupFlag(warmup), code) <==> code.WarmupIncomplete? && !warmup
  {
    WhenCarries(!warmup, Flag(Invalid, false, "warmup", [WarmupIncomplete]), code);
  }

  /** Some two of three prices are apart. */
  predicate SomeApart(a: Option<real>, b: Option<real>, c: Option<real>, limitBps: int) {
    Apart(a, b, limitBps) || Apart(a, c, limitBps) || Apart(b, c, limitBps)
  }

  lemma MismatchCarries(
    a: Option<real>, b: Option<real>, c: Option<real>, cfg: Config, warmup: bool, code: Code)
    requires (a.Some? ==> a.value > 0.0) && (b.Some? ==> b.value > 0.0) && (c.Some? ==> c.value > 0.0)
    ensures Carries(MismatchFlag(Cons(a) + Cons(b) + Cons(c), cfg, warmup), code)
       <==> code.SnapshotMismatch? && SomeApart(a, b, c, cfg.maxCrossSourceBps)
  {
    var prices, limit := Cons(a) + Cons(b) + Cons(c), cfg.maxCrossSourceBps;
    WhenCarries(Disagree(prices, limit), Flag(Degraded, warmup, "cross_source", [SnapshotMismatch]), code);
    DisagreeIsApart(a, b, c, limit);
  }

  lemma DisagreeIsApart(a: Option<real>, b: Option<real>, c: Option<real>, limit: int)
    requires (a.Some? ==> a.value > 0.0) && (b.Some? ==> b.value > 0.0) && (c.Some? ==> c.value > 0.0)
    ensures Disagree(Cons(a) + Cons(b) + Cons(c), limit) <==> SomeApart(a, b, c, limit)
  {
    var prices := Cons(a) + Cons(b) + Cons(c);
    if a.Some? && b.Some? {
      GapIsApart(a.value, b.value, limit);
      assert prices[0] == a.value && prices[1] == b.value;
    }
    if a.Some? && c.Some? {
      GapIsApart(a.value, c.value, limit);
      assert prices[0] == a.value && prices[|prices| - 1] == c.value;
    }
    if b.Some? && c.Some? {
      GapIsApart(b.value, c.value, limit);
      assert prices[|prices| - 2] == b.value && prices[|prices| - 1] == c.value;
    }
  }

  // ------------------------------------------------------ the combined gate, put together

  ghost predicate CoreHeld(c: Cycle, code: Code) {
    || (code.PriceUnavailable? && ResolveLastPrice(c.chain, c.quote, c.bar).None?)
    || (code.ConfigUnverified? && c.session.Unverified?)
    || (code.OutsideSession? && (c.session.Unverified? || c.session.OutOfSession?))
    || (code.WarmupIncomplete? && !c.Warmup())
    || (code.ClockDrift? && Late(c.chain.eventTime, c.cfg.maxClockDriftMs, c.chain.receiveTime))
  }

  lemma CoreCarries(c: Cycle, code: Code)
    ensures Carries(CoreChecks(c), code) <==> CoreHeld(c, code)
  {
    var w := c.Warmup();
    var price := PriceFlag(ResolveLastPrice(c.chain, c.quote, c.bar), w);
    var session := SessionFlags(c.session, w, COMBINED_UNVERIFIED);
    PriceCarries(ResolveLastPrice(c.chain, c.quote, c.bar), w, code);
    SessionCarries(c.session, w, COMBINED_UNVERIFIED, code);
    WarmupCarries(w, code);
    DriftCarries(c.DriftMs(), c.cfg, w, code);
    LateIsAge(c.chain.eventTime, c.cfg.maxClockDriftMs, c.chain.receiveTime);
    CarriesAppend(price, session, code);
    CarriesAppend(price + session, WarmupFlag(w), code);
    CarriesAppend(price + session + WarmupFlag(w), DriftFlag(c.DriftMs(), c.cfg, w), code);
  }

  function QuoteFeed(quote: Event, limitMs: int): Feed { Feed(quote.receiveTime, limitMs, quote.quoteCount != 0) }

  function BarFeed(bar: Event, limitMs: int): Feed { Feed(bar.receiveTime, limitMs, bar.barCount != 0) }

  lemma QuoteCarries(c: Cycle, now: int, code: Code)
    ensures Carries(QuoteChecks(c, now), code)
       <==> && c.quote.Some?
            && (|| (code.DataDegraded? && c.quote.value.quoteCount == 0)
                || Aged(QuoteFeed(c.quote.value, c.quoteMaxAge), now, code)
                || (code.SpreadTooWide? && WideQuote(c.quote.value, c.cfg.maxSpreadBps)))
  {
    if c.quote.Some? {
      var q := c.quote.value;
      var softened := Soften(QuoteReport(q, now, c.quoteMaxAge, true), c.Warmup(), "missing_quotes");
      SoftenedReasons(
        q.receiveTime, q.quoteCount, now, c.quoteMaxAge, "empty_quotes", c.Warmup(), "missing_quotes", code);
      OneCarries(softened, code);
      SpreadCarries(q, c.cfg, c.Warmup(), code);
      CarriesAppend([softened], SpreadFlag(q, c.cfg, c.Warmup()), code);
    }
  }

  lemma BarCarries(c: Cycle, now: int, code: Code)
    ensures Carries(BarChecks(c, now), code)
       <==> && c.bar.Some?
            && (|| (code.DataDegraded? && c.bar.value.barCount == 0)
                || Aged(BarFeed(c.bar.value, c.barMaxAge), now, code))
  {
    if c.bar.Some? {
      var b := c.bar.value;
      SoftenedReasons(b.receiveTime, b.barCount, now, c.barMaxAge, "empty_bars", c.Warmup(), "missing_bars", code);
      OneCarries(Soften(BarReport(b, now, c.barMaxAge, true), c.Warmup(), "missing_bars"), code);
    }
  }

  /** Some feed other than the chain earns the code by its age. */
  ghost predicate OtherAged(c: Cycle, now: int, code: Code) {
    || (c.quote.Some? && Aged(QuoteFeed(c.quote.value, c.quoteMaxAge), now, code))
    || (c.bar.Some? && Aged(BarFeed(c.bar.value, c.barMaxAge), now, code))
    || (c.depth.Some? && Aged(DepthFeed(c.depth.value, c.depthMaxAge), now, code))
  }

  lemma FeedsCarry(c: Cycle, now: int, code: Code)
    ensures Carries(FeedChecks(c, now), code)
       <==> || OtherAged(c, now, code)
            || (code.DataDegraded? && c.quote.Some? && c.quote.value.quoteCount == 0)
            || (code.DataDegraded? && c.bar.Some? && c.bar.value.barCount == 0)
            || (code.SpreadTooWide? && c.quote.Some? && WideQuote(c.quote.value, c.cfg.maxSpreadBps))
            || (code.DepthInsufficient? && c.depth.Some?
                && (c.depth.value.bidCount == 0 || c.depth.value.askCount == 0))
  {
    QuoteCarries(c, now, code);
    BarCarries(c, now, code);
    DepthCarries(c.depth, now, c.depthMaxAge, true, code);
    CarriesAppend(QuoteChecks(c, now), BarChecks(c, now), code);
    CarriesAppend(QuoteChecks(c, now) + BarChecks(c, now), DepthChecks(c.depth, now, c.depthMaxAge, true), code);
  }

  lemma MarketCarries(c: Cycle, now: int, code: Code)
    ensures Carries(MarketChecks(c), code)
       <==> || (code.DataDegraded? && c.session.InSession? && c.status.StatusOther?)
            || (code.SnapshotMismatch? && Held(c, now, code))
  {
    var spot := ChainSpot(c.chain);
    var last := if c.quote.Some? then QuoteLast(c.quote.value) else None;
    var close := if c.bar.Some? then BarClose(c.bar.value) else None;
    assert c.SourcePrices() == Cons(spot) + Cons(last) + Cons(close);
    ClosedCarries(c.session, c.status, c.Warmup(), code);
    MismatchCarries(spot, last, close, c.cfg, c.Warmup(), code);
    CarriesAppend(ClosedFlag(c.session, c.status, c.Warmup()), MismatchFlag(c.SourcePrices(), c.cfg, c.Warmup()), code);
  }

  lemma AgedFeeds(c: Cycle, now: int)
    ensures var chain := Feed(c.chain.receiveTime, c.chainMaxAge, c.chain.strikeCount != 0);
            && (SomeStales(Feeds(c), now) <==> Aged(chain, now, DataStale) || OtherAged(c, now, DataStale))
            && (SomeDegrades(Feeds(c), now) <==> Aged(chain, now, DataDegraded) || OtherAged(c, now, DataDegraded))
  {
    assert Feed(c.chain.receiveTime, c.chainMaxAge, c.chain.strikeCount != 0) in Feeds(c);
    if c.quote.Some? { assert QuoteFeed(c.quote.value, c.quoteMaxAge) in Feeds(c); }
    if c.bar.Some? { assert BarFeed(c.bar.value, c.barMaxAge) in Feeds(c); }
    if c.depth.Some? { assert DepthFeed(c.depth.value, c.depthMaxAge) in Feeds(c); }
  }

  /** The combined verdict names a code exactly when the cycle earns it. */
  lemma ReasonsExactly(c: Cycle, now: int, code: Code)
    ensures code in Verdict(c, now).reasons <==> Held(c, now, code)
  {
    var base := ChainReport(c.chain, now, c.chainMaxAge);
    MeetCarries(base, FiredCombined(c, now), code);
    FeedReasons(c.chain.receiveTime, c.chain.strikeCount, now, c.chainMaxAge, true, "empty_chain", code);
    CoreCarries(c, code);
    FeedsCarry(c, now, code);
    MarketCarries(c, now, code);
    CarriesAppend(CoreChecks(c), FeedChecks(c, now), code);
    CarriesAppend(CoreChecks(c) + FeedChecks(c, now), MarketChecks(c), code);
    AgedFeeds(c, now);
  }

  lemma GradedAppend(xs: seq<Report>, ys: seq<Report>, cfg: Config)
    requires AllGraded(xs, cfg) && AllGraded(ys, cfg)
    ensures AllGraded(xs + ys, cfg)
  {
  }

  lemma GradedThree(xs: seq<Report>, ys: seq<Report>, zs: seq<Report>, cfg: Config)
    requires AllGraded(xs, cfg) && AllGraded(ys, cfg) && AllGraded(zs, cfg)
    ensures AllGraded(xs + ys + zs, cfg)
  {
    GradedAppend(xs, ys, cfg);
    GradedAppend(xs + ys, zs, cfg);
  }

  lemma CoreGraded(c: Cycle)
    ensures AllGraded(CoreChecks(c), c.cfg)
  {
    var w := c.Warmup();
    var price := PriceFlag(ResolveLastPrice(c.chain, c.quote, c.bar), w);
    var session := SessionFlags(c.session, w, COMBINED_UNVERIFIED);
    GradedAppend(price, session, c.cfg);
    GradedAppend(price + session, WarmupFlag(w), c.cfg);
    GradedAppend(price + session + WarmupFlag(w), DriftFlag(c.DriftMs(), c.cfg, w), c.cfg);
  }

  lemma QuoteGraded(c: Cycle, now: int)
    ensures AllGraded(QuoteChecks(c, now), c.cfg)
  {
  }

  lemma BarGraded(c: Cycle, now: int)
    ensures AllGraded(BarChecks(c, now), c.cfg)
  {
  }

  lemma DepthGraded(c: Cycle, now: int)
    ensures AllGraded(DepthChecks(c.depth, now, c.depthMaxAge, true), c.cfg)
  {
  }

  lemma FeedsGraded(c: Cycle, now: int)
    ensures AllGraded(FeedChecks(c, now), c.cfg)
  {
    QuoteGraded(c, now);
    BarGraded(c, now);
    DepthGraded(c, now);
    GradedThree(QuoteChecks(c, now), BarChecks(c, now), DepthChecks(c.depth, now, c.depthMaxAge, true), c.cfg);
  }

  lemma FiredGraded(c: Cycle, now: int)
    ensures AllGraded(FiredCombined(c, now), c.cfg)
  {
    CoreGraded(c);
    FeedsGraded(c, now);
    MarketGraded(c);
    GradedThree(CoreChecks(c), FeedChecks(c, now), MarketChecks(c), c.cfg);
  }

  lemma MarketGraded(c: Cycle)
    ensures AllGraded(MarketChecks(c), c.cfg)
  {
  }

  /** And its state is that of the worst code it names, or VALID without any. */
  lemma StateExactly(c: Cycle, now: int)
    ensures forall code | Held(c, now, code) :: Rank(Verdict(c, now).state) <= Rank(Severity(code, c.cfg))
    ensures Verdict(c, now).state.Valid?
         || exists code :: Held(c, now, code) && Verdict(c, now).state == Severity(code, c.cfg)
  {
    FiredGraded(c, now);
    MeetGraded(ChainReport(c.chain, now, c.chainMaxAge), FiredCombined(c, now), c.cfg);
    forall code ensures code in Verdict(c, now).reasons <==> Held(c, now, code) { ReasonsExactly(c, now, code); }
  }

  /** Freshness of what the combined gate reports. A valid report means every feed holds something and
      is within half its limit; a filled feed beyond its limit, and nothing else, makes the report name
      staleness and be no better than stale; beyond half its limit it is no better than degraded. */
  lemma CombinedFreshness(c: Cycle, now: int, q: Report)
    requires ViewOf(q) == Verdict(c, now)
    ensures forall code :: code in q.reasons <==> Held(c, now, code)
    ensures q.state.Valid? ==>
              forall f | f in Feeds(c) :: Fresh(f, now)
    ensures SomeStales(Feeds(c), now) <==> DataStale in q.reasons
    ensures SomeStales(Feeds(c), now) ==> Rank(q.state) <= Rank(Stale)
    ensures SomeDegrades(Feeds(c), now) ==> Rank(q.state) <= Rank(Degraded)
  {
    forall code ensures code in q.reasons <==> Held(c, now, code) {
      ReasonsExactly(c, now, code);
      assert code in q.reasons <==> code in ViewOf(q).reasons;
    }
    StateExactly(c, now);
    if q.state.Valid? {
      forall code ensures !Held(c, now, code) {
        assert Held(c, now, code) ==> Rank(Verdict(c, now).state) <= Rank(Severity(code, c.cfg));
      }
      NothingHeldIsFresh(c, now);
    }
    assert Held(c, now, DataStale) <==> SomeStales(Feeds(c), now);
    assert SomeDegrades(Feeds(c), now) ==> Held(c, now, DataDegraded);
  }

  lemma NothingHeldIsFresh(c: Cycle, now: int)
    requires forall code :: !Held(c, now, code)
    ensures forall f | f in Feeds(c) :: Fresh(f, now)
  {
    assert !Held(c, now, DataInvalid) && !Held(c, now, DepthInsufficient);
    assert !Held(c, now, DataStale) && !Held(c, now, DataDegraded);
    forall f | f in Feeds(c)
      ensures Fresh(f, now)
    {
      assert !Stales(f, now) && !Degrades(f, now);
    }
  }

  // ----------------------------------------------------------------------- the index gate

  function IndexFeedsOf(c: IndexCycle): seq<Feed> {
    [QuoteFeed(c.quote, c.quoteMaxAge)]
    + (if c.bar.Some? then [BarFeed(c.bar.value, c.barMaxAge)] else [])
    + (if c.depth.Some? then [DepthFeed(c.depth.value, c.depthMaxAge)] else [])
  }

  /** What a code says of an index cycle. */
  ghost predicate IndexHeld(c: IndexCycle, now: int, code: Code) {
    match code
    case DataInvalid => c.quote.quoteCount == 0 || (c.bar.Some? && c.bar.value.barCount == 0)
    case DataStale => SomeStales(IndexFeedsOf(c), now)
    case DataDegraded =>
      SomeDegrades(IndexFeedsOf(c), now) || (c.session.InSession? && c.status.StatusOther?)
    case DepthInsufficient => c.depth.Some? && (c.depth.value.bidCount == 0 || c.depth.value.askCount == 0)
    case PriceUnavailable => IndexLast(c.quote, c.bar).None?
    case OutsideSession => c.session.OutOfSession?
    case ConfigUnverified => c.session.Unverified?
    case WarmupIncomplete => c.bar.Some? && c.bar.value.barCount < c.cfg.minBarCount
    case ClockDrift => Late(c.quote.eventTime, c.cfg.maxClockDriftMs, c.quote.receiveTime)
    case SpreadTooWide => WideQuote(c.quote, c.cfg.maxSpreadBps)
    case SnapshotMismatch =>
      Apart(QuoteLast(c.quote), if c.bar.Some? then BarClose(c.bar.value) else None, c.cfg.maxCrossSourceBps)
  }

  lemma IndexCoreCarries(c: IndexCycle, code: Code)
    ensures Carries(IndexCore(c), code)
       <==> || (code.PriceUnavailable? && IndexLast(c.quote, c.bar).None?)
            || (code.ConfigUnverified? && c.session.Unverified?)
            || (code.OutsideSession? && c.session.OutOfSession?)
            || (code.WarmupIncomplete? && !c.Warmup())
            || (code.SpreadTooWide? && WideQuote(c.quote, c.cfg.maxSpreadBps))
  {
    var w := c.Warmup();
    var price, session := PriceFlag(IndexLast(c.quote, c.bar), w), SessionFlags(c.session, w, IndexUnverified(w));
    PriceCarries(IndexLast(c.quote, c.bar), w, code);
    SessionCarries(c.session, w, IndexUnverified(w), code);
    WarmupCarries(w, code);
    SpreadCarries(c.quote, c.cfg, w, code);
    CarriesAppend(price, session, code);
    CarriesAppend(price + session, WarmupFlag(w), code);
    CarriesAppend(price + session + WarmupFlag(w), SpreadFlag(c.quote, c.cfg, w), code);
  }

  function IndexBars(c: IndexCycle, now: int): seq<Report> {
    if c.bar.Some? then [BarReport(c.bar.value, now, c.barMaxAge, c.Warmup())] else []
  }

  lemma IndexBarCarries(c: IndexCycle, now: int, code: Code)
    ensures Carries(IndexBars(c, now), code)
       <==> && c.bar.Some?
            && (|| (code.DataInvalid? && c.bar.value.barCount == 0)
                || Aged(BarFeed(c.bar.value, c.barMaxAge), now, code))
  {
    if c.bar.Some? {
      var b := c.bar.value;
      FeedReasons(b.receiveTime, b.barCount, now, c.barMaxAge, c.Warmup(), "empty_bars", code);
      OneCarries(BarReport(b, now, c.barMaxAge, c.Warmup()), code);
    }
  }

  lemma IndexFeedsCarry(c: IndexCycle, now: int, code: Code)
    ensures Carries(IndexFeeds(c, now), code)
       <==> || (c.bar.Some? && code.DataInvalid? && c.bar.value.barCount == 0)
            || (c.bar.Some? && Aged(BarFeed(c.bar.value, c.barMaxAge), now, code))
            || (c.depth.Some? && Aged(DepthFeed(c.depth.value, c.depthMaxAge), now, code))
            || (code.DepthInsufficient? && c.depth.Some?
                && (c.depth.value.bidCount == 0 || c.depth.value.askCount == 0))
  {
    IndexBarCarries(c, now, code);
    DepthCarries(c.depth, now, c.depthMaxAge, c.Warmup(), code);
    CarriesAppend(IndexBars(c, now), DepthChecks(c.depth, now, c.depthMaxAge, c.Warmup()), code);
  }

  lemma IndexMarketCarries(c: IndexCycle, now: int, code: Code)
    ensures Carries(IndexMarket(c), code)
       <==> || (code.DataDegraded? && c.session.InSession? && c.status.StatusOther?)
            || (code.ClockDrift? && IndexHeld(c, now, code))
            || (code.SnapshotMismatch? && IndexHeld(c, now, code))
  {
    var close := if c.bar.Some? then BarClose(c.bar.value) else None;
    var closed := ClosedFlag(c.session, c.status, c.Warmup());
    var drifted := DriftFlag(c.DriftMs(), c.cfg, c.Warmup());
    assert c.SourcePrices() == Cons(QuoteLast(c.quote)) + Cons(close) + Cons(None);
    ClosedCarries(c.session, c.status, c.Warmup(), code);
    DriftCarries(c.DriftMs(), c.cfg, c.Warmup(), code);
    LateIsAge(c.quote.eventTime, c.cfg.maxClockDriftMs, c.quote.receiveTime);
    MismatchCarries(QuoteLast(c.quote), close, None, c.cfg, c.Warmup(), code);
    CarriesAppend(closed, drifted, code);
    CarriesAppend(closed + drifted, MismatchFlag(c.SourcePrices(), c.cfg, c.Warmup()), code);
  }

  lemma IndexAgedFeeds(c: IndexCycle, now: int, code: Code)
    requires code.DataStale? || code.DataDegraded?
    ensures (exists f :: f in IndexFeedsOf(c) && Aged(f, now, code))
       <==> || Aged(QuoteFeed(c.quote, c.quoteMaxAge), now, code)
            || (c.bar.Some? && Aged(BarFeed(c.bar.value, c.barMaxAge), now, code))
            || (c.depth.Some? && Aged(DepthFeed(c.depth.value, c.depthMaxAge), now, code))
  {
    assert QuoteFeed(c.quote, c.quoteMaxAge) in IndexFeedsOf(c);
    if c.bar.Some? { assert BarFeed(c.bar.value, c.barMaxAge) in IndexFeedsOf(c); }
    if c.depth.Some? { assert DepthFeed(c.depth.value, c.depthMaxAge) in IndexFeedsOf(c); }
  }

  lemma AgedIsSome(feeds: seq<Feed>, now: int)
    ensures SomeStales(feeds, now) <==> exists f :: f in feeds && Aged(f, now, DataStale)
    ensures SomeDegrades(feeds, now) <==> exists f :: f in feeds && Aged(f, now, DataDegraded)
  {
    if f :| f in feeds && Stales(f, now) { assert Aged(f, now, DataStale); }
    if f :| f in feeds && Degrades(f, now) { assert Aged(f, now, DataDegraded); }
  }

  lemma IndexReasonsExactly(c: IndexCycle, now: int, code: Code)
    ensures code in IndexVerdict(c, now).reasons <==> IndexHeld(c, now, code)
  {
    MeetCarries(IndexBase(c, now), IndexCore(c) + IndexFeeds(c, now) + IndexMarket(c), code);
    FeedReasons(c.quote.receiveTime, c.quote.quoteCount, now, c.quoteMaxAge, c.Warmup(), "empty_quotes", code);
    IndexCoreCarries(c, code);
    IndexFeedsCarry(c, now, code);
    IndexMarketCarries(c, now, code);
    CarriesAppend(IndexCore(c), IndexFeeds(c, now), code);
    CarriesAppend(IndexCore(c) + IndexFeeds(c, now), IndexMarket(c), code);
    AgedIsSome(IndexFeedsOf(c), now);
    if code.DataStale? || code.DataDegraded? { IndexAgedFeeds(c, now, code); }
  }

  lemma IndexCoreGraded(c: IndexCycle)
    ensures AllGraded(IndexCore(c), c.cfg)
  {
    var w := c.Warmup();
    var price, session := PriceFlag(IndexLast(c.quote, c.bar), w), SessionFlags(c.session, w, IndexUnverified(w));
    GradedAppend(price, session, c.cfg);
    GradedAppend(price + session, WarmupFlag(w), c.cfg);
    GradedAppend(price + session + WarmupFlag(w), SpreadFlag(c.quote, c.cfg, w), c.cfg);
  }

  lemma IndexFeedsGraded(c: IndexCycle, now: int)
    ensures AllGraded(IndexFeeds(c, now), c.cfg)
  {
    GradedAppend(IndexBars(c, now), DepthChecks(c.depth, now, c.depthMaxAge, c.Warmup()), c.cfg);
  }

  lemma IndexMarketGraded(c: IndexCycle)
    ensures AllGraded(IndexMarket(c), c.cfg)
  {
    var w := c.Warmup();
    var closed, drifted := ClosedFlag(c.session, c.status, w), DriftFlag(c.DriftMs(), c.cfg, w);
    GradedAppend(closed, drifted, c.cfg);
    GradedAppend(closed + drifted, MismatchFlag(c.SourcePrices(), c.cfg, w), c.cfg);
  }

  lemma IndexGraded(c: IndexCycle, now: int)
    ensures AllGraded(IndexCore(c) + IndexFeeds(c, now) + IndexMarket(c), c.cfg)
  {
    IndexCoreGraded(c);
    IndexFeedsGraded(c, now);
    IndexMarketGraded(c);
    GradedAppend(IndexCore(c), IndexFeeds(c, now), c.cfg);
    GradedAppend(IndexCore(c) + IndexFeeds(c, now), IndexMarket(c), c.cfg);
  }

  lemma IndexStateExactly(c: IndexCycle, now: int)
    ensures forall code | IndexHeld(c, now, code) :: Rank(IndexVerdict(c, now).state) <= Rank(Severity(code, c.cfg))
    ensures IndexVerdict(c, now).state.Valid?
         || exists code :: IndexHeld(c, now, code) && IndexVerdict(c, now).state == Severity(code, c.cfg)
  {
    IndexGraded(c, now);
    MeetGraded(IndexBase(c, now), IndexCore(c) + IndexFeeds(c, now) + IndexMarket(c), c.cfg);
    forall code ensures code in IndexVerdict(c, now).reasons <==> IndexHeld(c, now, code) {
      IndexReasonsExactly(c, now, code);
    }
  }

  /** The same freshness of what the index gate reports. */
  lemma IndexFreshness(c: IndexCycle, now: int, q: Report)
    requires ViewOf(q) == IndexVerdict(c, now)
    ensures forall code :: code in q.reasons <==> IndexHeld(c, now, code)
    ensures q.state.Valid? ==>
              forall f | f in IndexFeedsOf(c) :: Fresh(f, now)
    ensures SomeStales(IndexFeedsOf(c), now) <==> DataStale in q.reasons
    ensures SomeStales(IndexFeedsOf(c), now) ==> Rank(q.state) <= Rank(Stale)
    ensures SomeDegrades(IndexFeedsOf(c), now) ==> Rank(q.state) <= Rank(Degraded)
  {
    forall code ensures code in q.reasons <==> IndexHeld(c, now, code) {
      IndexReasonsExactly(c, now, code);
      assert code in q.reasons <==> code in ViewOf(q).reasons;
    }
    IndexStateExactly(c, now);
    if q.state.Valid? {
      forall code ensures !IndexHeld(c, now, code) {
        assert IndexHeld(c, now, code) ==> Rank(IndexVerdict(c, now).state) <= Rank(Severity(code, c.cfg));
      }
      NothingHeldIsFreshIndex(c, now);
    }
    assert IndexHeld(c, now, DataStale) <==> SomeStales(IndexFeedsOf(c), now);
    assert SomeDegrades(IndexFeedsOf(c), now) ==> IndexHeld(c, now, DataDegraded);
  }

  lemma NothingHeldIsFreshIndex(c: IndexCycle, now: int)
    requires forall code :: !IndexHeld(c, now, code)
    ensures forall f | f in IndexFeedsOf(c) :: Fresh(f, now)
  {
    assert !IndexHeld(c, now, DataInvalid) && !IndexHeld(c, now, DepthInsufficient);
    assert !IndexHeld(c, now, DataStale) && !IndexHeld(c, now, DataDegraded);
    forall f | f in IndexFeedsOf(c)
      ensures Fresh(f, now)
    {
      assert !Stales(f, now) && !Degrades(f, now);
    }
  }
}
