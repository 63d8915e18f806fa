/** When a best score is refused (src/trading/domain/contracts/identification.py:107-116). */
module Refusals {
  import opened Wrappers
  import opened Contracts
  import opened Scoring
  import opened Search
  import opened Binders
  import D = Decimals

  ghost predicate BooksValid(items: seq<Snapshot>) {
    forall c | c in items :: c.market.Valid()
  }

  lemma LegScoreInUnit(desk: Desk, c: Snapshot, range: DeltaRange, role: Role)
    requires desk.Valid() && c.market.Valid()
    ensures 0.0 <= LegScore(desk, c, range, role) <= 1.0
  {
    CandidateScoreInUnit(c, desk.universe, desk.policy, range, desk.p1, role);
  }

  lemma RawScoreBounds(s: Structure, desk: Desk, legs: seq<Snapshot>)
    requires desk.Valid() && BooksValid(desk.universe) && Admissible(s, desk, legs)
    ensures RawScore(s, desk, legs) <= 1.0
    ensures s.IronCondor? ==> MeanWingScore(desk, legs) <= 1.0
    ensures !s.IronCondor? ==> RawScore(s, desk, legs) >= 0.0
  {
    forall i, range: DeltaRange, role: Role | 0 <= i < |legs|
      ensures 0.0 <= LegScore(desk, legs[i], range, role) <= 1.0
    {
      LegScoreInUnit(desk, legs[i], range, role);
    }
  }

  lemma ScoreBounds(s: Structure, desk: Desk, legs: seq<Snapshot>)
    requires desk.Valid() && BooksValid(desk.universe) && Admissible(s, desk, legs)
    ensures RowOf(s, desk, legs).score <= 1.0
    ensures !s.IronCondor? ==> RowOf(s, desk, legs).score >= 0.0
  {
    var raw := RawScore(s, desk, legs);
    RawScoreBounds(s, desk, legs);
    D.QuantizeMonotone(raw, 1.0, 1_000_000);
    D.QuantizeInteger(1.0, 1, 1_000_000);
    if !s.IronCondor? { D.QuantizeBounds(raw, 0, 1, 1_000_000); }
  }

  /** Six places: half a millionth below zero still rounds to zero, to the even side. */
  lemma RoundsBelowZero(x: real)
    ensures Q6(x) < 0.0 <==> x < -0.0000005
  {
    var n := D.Round(x * 1_000_000.0, D.HalfEven);
    D.RoundSpec(x * 1_000_000.0, n, D.HalfEven);
    D.QuantizeIs(x, n, 1_000_000);
    if x == -0.0000005 { D.RoundSpec(-0.5, 0, D.HalfEven); }
  }

  /** One wing outweighs the quality of the legs, by more than the rounding forgives. */
  predicate Lopsided(desk: Desk, legs: seq<Snapshot>)
    requires desk.Valid() && |legs| == 4
  {
    WingMismatch(legs) > 1000.0 * MeanWingScore(desk, legs) + 0.0005
  }

  lemma LopsidedScoresBelowZero(desk: Desk, legs: seq<Snapshot>)
    requires desk.Valid() && |legs| == 4
    ensures Lopsided(desk, legs) <==> RowOf(IronCondor, desk, legs).score < 0.0
  {
    RoundsBelowZero(MeanWingScore(desk, legs) - WingMismatch(legs) / 1000.0);
  }

  lemma BestCondorRefused(desk: Desk, best: seq<Snapshot>)
    requires desk.Valid() && Best(IronCondor, desk, best)
    ensures RowOf(IronCondor, desk, best).score < 0.0 <==>
              forall legs | Admissible(IronCondor, desk, legs) :: Lopsided(desk, legs)
  {
    LopsidedScoresBelowZero(desk, best);
    if RowOf(IronCondor, desk, best).score < 0.0 {
      forall legs | Admissible(IronCondor, desk, legs) ensures Lopsided(desk, legs) {
        assert !RowLess(RowOf(IronCondor, desk, legs), RowOf(IronCondor, desk, best));
        LopsidedScoresBelowZero(desk, legs);
      }
    }
  }

  lemma BestOf(s: Structure, desk: Desk, all: seq<Snapshot>, b: Binding) returns (best: seq<Snapshot>)
    requires desk.Valid() && Binds(s, desk, all, b) && exists legs :: Admissible(s, desk, legs)
    ensures Best(s, desk, best) && b == Outcome(s, desk, all, best)
  {
    best :| Best(s, desk, best) && b == Outcome(s, desk, all, best);
  }

  lemma RefusedOutcome(s: Structure, desk: Desk, all: seq<Snapshot>, legs: seq<Snapshot>)
    requires desk.Valid() && |legs| == LegCount(s)
    ensures Outcome(s, desk, all, legs).ScoreRefused? <==> !(0.0 <= RowOf(s, desk, legs).score <= 1.0)
  {
  }

  /** A search ends in a refused score exactly when it looks for a condor, there is one to bind, and
      in every one of them the wing mismatch outweighs the mean leg score. */
  lemma RefusedExactly(s: Structure, desk: Desk, all: seq<Snapshot>, b: Binding)
    requires desk.Valid() && BooksValid(desk.universe) && Binds(s, desk, all, b)
    ensures b.ScoreRefused? <==>
              && s.IronCondor?
              && (exists legs :: Admissible(s, desk, legs))
              && forall legs | Admissible(s, desk, legs) :: Lopsided(desk, legs)
  {
    if exists legs :: Admissible(s, desk, legs) {
      var best := BestOf(s, desk, all, b);
      RefusedOutcome(s, desk, all, best);
      ScoreBounds(s, desk, best);
      if s.IronCondor? { BestCondorRefused(desk, best); }
    }
  }

  /** What that means for a request: only the condor family is ever refused, and exactly on the feeds
      whose every condor is lopsided. */
  lemma BindRefusesExactly(family: Family, r: Request, b: Binding)
    requires r.Valid() && BooksValid(r.Desk().universe) && Honours(family, r, b)
    ensures b.ScoreRefused? <==>
              && Plan(family, r) == Ok(IronCondor)
              && (exists legs :: Admissible(IronCondor, r.Desk(), legs))
              && forall legs | Admissible(IronCondor, r.Desk(), legs) :: Lopsided(r.Desk(), legs)
  {
    if Plan(family, r).Ok? { RefusedExactly(Plan(family, r).value, r.Desk(), r.all, b); }
  }

  // ------------------------------------------------------------------ a refused feed

  /** A candidate that passes every gate of `AnyPolicy`. */
  function Quoted(symbol: string, side: OptionType, strike: real): Snapshot {
    Snapshot(
      Contract(symbol, true, Some(side), Some(strike), Some(8)),
      Some(Derivatives(8, Some(1), Some(Greeks(true, Some(0.5), Some(0.2), None, None)))),
      Book(Some(100.0), Some(100.0), None, None, None), true, Some(1.0), Some(1.0))
  }

  function AnyPolicy(): Policy { Policy(0, 1.0, 0.0, 1.0, 0.0, 1.0, 0, 30, 0, 60, 1.0, 0.0) }

  lemma QuotedIsUsable(symbol: string, side: OptionType, strike: real)
    ensures Usable(Quoted(symbol, side, strike), AnyPolicy()) && AnyPolicy().Valid()
    ensures Quoted(symbol, side, strike).market.Valid() && OfSide(Quoted(symbol, side, strike), side)
  {
  }

  /** Four quotes with their strikes in order. */
  function QuotedWings(w: real, x: real, y: real, z: real): seq<Snapshot> {
    [Quoted("A", Put, w), Quoted("B", Put, x), Quoted("C", Call, y), Quoted("D", Call, z)]
  }

  lemma QuotedWingsFacts(w: real, x: real, y: real, z: real)
    requires w < x < y < z
    ensures var feed := QuotedWings(w, x, y, z);
            && (forall c | c in feed :: Usable(c, AnyPolicy())) && BooksValid(feed)
            && OfSide(feed[0], Put) && OfSide(feed[1], Put) && OfSide(feed[2], Call) && OfSide(feed[3], Call)
            && WingsTest(IronCondor, feed[0], feed[1], feed[2], feed[3])
            && WingMismatch(feed) == D.Abs((x - w) - (z - y))
  {
    QuotedIsUsable("A", Put, w);
    QuotedIsUsable("B", Put, x);
    QuotedIsUsable("C", Call, y);
    QuotedIsUsable("D", Call, z);
  }

  function RangeRequest(feed: seq<Snapshot>): Request { Request(feed, Range, Normal, AnyPolicy(), None, None) }

  /** Two puts and two calls in strike order make one condor. */
  lemma OneCondor(desk: Desk, p: Snapshot, q: Snapshot, c: Snapshot, d: Snapshot, legs: seq<Snapshot>)
    requires desk.universe == [p, q, c, d] && forall x | x in desk.universe :: Usable(x, desk.policy)
    requires OfSide(p, Put) && OfSide(q, Put) && OfSide(c, Call) && OfSide(d, Call)
    requires WingsTest(IronCondor, p, q, c, d)
    ensures Admissible(IronCondor, desk, legs) <==> legs == [p, q, c, d]
  {
    WingsAdmissible(IronCondor, desk, p, q, c, d);
    if Admissible(IronCondor, desk, legs) { CondorOfFour(desk, p, q, c, d, legs); }
  }

  lemma CondorOfFour(desk: Desk, p: Snapshot, q: Snapshot, c: Snapshot, d: Snapshot, legs: seq<Snapshot>)
    requires desk.universe == [p, q, c, d] && Strike(p) < Strike(q) && Strike(c) < Strike(d)
    requires OfSide(p, Put) && OfSide(q, Put) && OfSide(c, Call) && OfSide(d, Call)
    requires Admissible(IronCondor, desk, legs)
    ensures legs == [p, q, c, d]
  {
    assert legs[0] in desk.universe && legs[1] in desk.universe;
    assert legs[2] in desk.universe && legs[3] in desk.universe;
    assert legs[0] == p && legs[1] == q && legs[2] == c && legs[3] == d;
  }

  /** More than a thousand points of mismatch outweigh any leg quality. */
  lemma OnlyCondorRefused(r: Request, p: Snapshot, q: Snapshot, c: Snapshot, d: Snapshot, b: Binding)
    requires r.Valid() && Plan(CondorFamily, r) == Ok(IronCondor) && Honours(CondorFamily, r, b)
    requires r.Desk().universe == [p, q, c, d] && BooksValid(r.Desk().universe)
    requires forall x | x in r.Desk().universe :: Usable(x, r.policy)
    requires OfSide(p, Put) && OfSide(q, Put) && OfSide(c, Call) && OfSide(d, Call)
    requires WingsTest(IronCondor, p, q, c, d) && WingMismatch([p, q, c, d]) >= 1001.0
    ensures b.ScoreRefused?
  {
    var legs := [p, q, c, d];
    forall t ensures Admissible(IronCondor, r.Desk(), t) <==> t == legs {
      OneCondor(r.Desk(), p, q, c, d, t);
    }
    RawScoreBounds(IronCondor, r.Desk(), legs);
    assert Lopsided(r.Desk(), legs);
    BindRefusesExactly(CondorFamily, r, b);
  }

  /** A range-bound feed with one condor to offer, its wings more than a thousand points apart, binds
      nothing. */
  lemma LopsidedFeedIsRefused(w: real, x: real, y: real, z: real, b: Binding)
    requires w < x < y < z && D.Abs((x - w) - (z - y)) >= 1001.0
    requires Honours(CondorFamily, RangeRequest(QuotedWings(w, x, y, z)), b)
    ensures b.ScoreRefused?
  {
    var feed := QuotedWings(w, x, y, z);
    QuotedWingsFacts(w, x, y, z);
    assert feed == [feed[0], feed[1], feed[2], feed[3]];
    OnlyCondorRefused(RangeRequest(feed), feed[0], feed[1], feed[2], feed[3], b);
  }

  /** Wings of nineteen hundred points and of one. */
  lemma RefusedFeed(b: Binding)
    requires Honours(CondorFamily, RangeRequest(QuotedWings(100.0, 2000.0, 3000.0, 3001.0)), b)
    ensures b.ScoreRefused?
  {
    LopsidedFeedIsRefused(100.0, 2000.0, 3000.0, 3001.0, b);
  }
}
