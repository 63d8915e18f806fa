/** The weekly long-option binder (src/trading/identification/binders.py:1302-1457, 2012-2104):
    expiry selection, then a strict and possibly a looser pass over that expiry's contracts. The
    first pass with survivors binds its survivor closest to the target delta, symbols breaking
    ties. */
module LongOption {
  import opened Wrappers
  import opened Ordering
  import opened Contracts
  import opened Scoring
  import opened Search
  import opened Binders
  import opened FeedOrder
  import opened Calendar
  import Expiry
  import D = Decimals

  datatype Pass = Pass(
    deltaMin: real, deltaMax: real, minOpenInterest: nat, maxSpreadFraction: real, dteMin: nat, dteMax: nat)

  /** The discovery profile brings a strict and a fallback pass; otherwise there is one. */
  function PassesOf(policy: Policy, discovery: Option<(Pass, Pass)>): (passes: seq<Pass>)
    ensures |passes| == if discovery.Some? then 2 else 1
  {
    match discovery
    case Some((strict, fallback)) => [strict, fallback]
    case None => [Pass(0.45, 0.65, policy.minOpenInterest, policy.maxSpreadFraction, 0, 365)]
  }

  datatype LongRequest = LongRequest(
    base: Request, asOf: Expiry.Day, holidays: set<int>, allowFallbackExpiry: bool,
    discovery: Option<(Pass, Pass)>)
  {
    /** Expiries are dates, so their day numbers are positive. */
    predicate Valid() {
      && base.Valid()
      && forall c | c in base.all && c.contract.expiry.Some? :: c.contract.expiry.value >= 1
    }

    function Universe(): seq<Snapshot> { base.Desk().universe }

    function Passes(): (passes: seq<Pass>)
      ensures |passes| == if discovery.Some? then 2 else 1
    {
      PassesOf(base.policy, discovery)
    }
  }

  datatype LongBinding =
    | Refused(reason: Reason, rejected: seq<string>)
    | Bound(score: real, selected: Snapshot, expiry: Expiry.Day, deltaFallback: bool, rejected: seq<string>)

  // ---------------------------------------------------------------------- stages

  function ListedExpiries(items: seq<Snapshot>): seq<Expiry.Day>
    requires forall c | c in items && c.contract.expiry.Some? :: c.contract.expiry.value >= 1
  {
    if items == [] then []
    else
      var n := |items| - 1;
      ListedExpiries(items[..n])
        + match items[n].contract.expiry
          case Some(e) => [FromOrdinal(e)]
          case None => []
  }

  lemma {:induction false} ListedMembers(items: seq<Snapshot>)
    requires forall c | c in items && c.contract.expiry.Some? :: c.contract.expiry.value >= 1
    ensures forall d: Expiry.Day :: d in ListedExpiries(items) <==>
              exists c :: c in items && c.contract.expiry == Some(Ordinal(d))
  {
    if items != [] {
      var n := |items| - 1;
      ListedMembers(items[..n]);
      assert items == items[..n] + [items[n]];
      forall d: Expiry.Day
        ensures d in ListedExpiries(items) <==> exists c :: c in items && c.contract.expiry == Some(Ordinal(d))
      {
        OrdinalRoundTrip(d);
      }
    }
  }

  lemma UniverseIsFromTheFeed(q: LongRequest)
    ensures forall c | c in q.Universe() :: c in q.base.all
  {
    if q.base.master.Some? {
      FilterMembers((c: Snapshot) => c.Symbol() in q.base.master.value, q.base.all);
    }
  }

  function ExpiryReason(reason: Expiry.Reason): Reason {
    if reason.TooCloseExcluded? then ExpiryZeroOneDteExcluded else CalendarNoEligibleExpiry
  }

  function SelectExpiry(q: LongRequest): Expiry.Selection
    requires q.Valid()
  {
    UniverseIsFromTheFeed(q);
    Expiry.Select(ListedExpiries(q.Universe()), q.asOf, q.holidays, q.allowFallbackExpiry)
  }

  /** What is decided before contracts are compared: the side and the expiry, or a refusal. */
  function Stage(q: LongRequest): Result<(OptionType, Expiry.Day), Reason>
    requires q.Valid()
  {
    if MasterAbsent(q.base) then Err(InstrumentMasterAbsent)
    else
      match DirectionType(q.base.trend)
      case None => Err(DirectionUnresolved)
      case Some(side) =>
        var chosen := SelectExpiry(q);
        if chosen.expiry.None? then Err(ExpiryReason(chosen.reason)) else Ok((side, chosen.expiry.value))
  }

  function AtExpiry(day: Expiry.Day): Snapshot -> bool {
    (c: Snapshot) => c.contract.expiry == Some(Ordinal(day))
  }

  predicate Survives(c: Snapshot, side: OptionType, pass: Pass) {
    && c.contract.optionType == Some(side)
    && GateReason(c, pass.minOpenInterest, pass.maxSpreadFraction).None?
    && c.derivatives.Some? && pass.dteMin <= c.derivatives.value.daysToExpiry <= pass.dteMax
    && AbsDeltaInRange(c, pass.deltaMin, pass.deltaMax)
  }

  function Surviving(side: OptionType, pass: Pass): Snapshot -> bool { (c: Snapshot) => Survives(c, side, pass) }

  function Survivors(q: LongRequest, side: OptionType, day: Expiry.Day, pass: Pass): seq<Snapshot> {
    Filter(Surviving(side, pass), Filter(AtExpiry(day), q.Universe()))
  }

  function Distance(c: Snapshot): real { D.Abs(AbsDelta(c).GetOr(0.0) - 0.55) }

  /** Closer to the target delta, or as close under an earlier symbol. */
  predicate Closer(a: Snapshot, b: Snapshot) {
    Distance(a) < Distance(b) || (Distance(a) == Distance(b) && StringLess(a.Symbol(), b.Symbol()))
  }

  ghost predicate Closest(c: Snapshot, items: seq<Snapshot>) {
    c in items && forall x | x in items :: !Closer(x, c)
  }

  lemma CloserTransitive(a: Snapshot, b: Snapshot, c: Snapshot)
    ensures Closer(a, b) && Closer(b, c) ==> Closer(a, c)
    ensures !Closer(a, a) && (Closer(a, b) ==> !Closer(b, a))
    ensures Closer(a, b) || Closer(b, a) || a.Symbol() == b.Symbol()
  {
    StringLessStrictTotal();
  }

  /** `_pick_closest_delta`. */
  method PickClosest(items: seq<Snapshot>) returns (best: Snapshot)
    requires items != []
    ensures Closest(best, items)
  {
    best := items[0];
    CloserTransitive(best, best, best);
    for i := 1 to |items|
      invariant best in items[..i] && forall x | x in items[..i] :: !Closer(x, best)
    {
      assert items[..i + 1] == items[..i] + [items[i]];
      var before := best;
      if Closer(items[i], best) { best := items[i]; }
      forall x | x in items[..i + 1] ensures !Closer(x, best) {
        CloserTransitive(x, items[i], before);
        CloserTransitive(x, best, before);
        CloserTransitive(best, best, best);
      }
    }
    assert items[..|items|] == items;
  }

  lemma ClosestIsUnique(items: seq<Snapshot>, a: Snapshot, b: Snapshot)
    requires Closest(a, items) && Closest(b, items)
    ensures a.Symbol() == b.Symbol()
  {
    CloserTransitive(a, b, a);
  }

  // -------------------------------------------------------------------- the answer

  function DeltaRangeOf(pass: Pass): DeltaRange { DeltaRange(pass.deltaMin, pass.deltaMax) }

  function ScoreOf(q: LongRequest, c: Snapshot, pass: Pass): real
    requires q.base.Valid()
  {
    CandidateScore(c, q.Universe(), q.base.policy, DeltaRangeOf(pass), q.base.p1, LongRole)
  }

  /** The first pass that any contract of the expiry survives. */
  ghost predicate FirstPass(q: LongRequest, side: OptionType, day: Expiry.Day, k: nat) {
    && k < |q.Passes()| && Survivors(q, side, day, q.Passes()[k]) != []
    && forall j | 0 <= j < k :: Survivors(q, side, day, q.Passes()[j]) == []
  }

  ghost predicate BindsAt(q: LongRequest, side: OptionType, day: Expiry.Day, k: nat, c: Snapshot, b: LongBinding)
    requires q.Valid()
  {
    && FirstPass(q, side, day, k) && Closest(c, Survivors(q, side, day, q.Passes()[k]))
    && b == LongBinding.Bound(ScoreOf(q, c, q.Passes()[k]), c, day, k > 0, Rejected(q.base.all, [c.Symbol()]))
  }

  ghost predicate Answers(q: LongRequest, b: LongBinding)
    requires q.Valid()
  {
    match Stage(q)
    case Err(reason) => b == Refused(reason, Rejected(q.base.all, []))
    case Ok((side, day)) =>
      if exists k :: FirstPass(q, side, day, k) then exists k, c :: BindsAt(q, side, day, k, c, b)
      else b == Refused(DominantReason(Filter(AtExpiry(day), q.Universe()), q.base.policy), Rejected(q.base.all, []))
  }

  /** `bind_m2_long_option`. */
  method BindLongOption(q: LongRequest) returns (b: LongBinding)
    requires q.Valid()
    ensures Answers(q, b)
  {
    var stage := Stage(q);
    if stage.Err? {
      return Refused(stage.error, Rejected(q.base.all, []));
    }
    var (side, day) := stage.value;
    var passes := q.Passes();
    for k := 0 to |passes|
      invariant forall j | 0 <= j < k :: Survivors(q, side, day, passes[j]) == []
    {
      var survivors := Survivors(q, side, day, passes[k]);
      if survivors != [] {
        var selected := PickClosest(survivors);
        b := LongBinding.Bound(
          ScoreOf(q, selected, passes[k]), selected, day, k > 0, Rejected(q.base.all, [selected.Symbol()]));
        assert FirstPass(q, side, day, k);
        assert BindsAt(q, side, day, k, selected, b);
        return;
      }
    }
    b := Refused(DominantReason(Filter(AtExpiry(day), q.Universe()), q.base.policy), Rejected(q.base.all, []));
  }

  // ---------------------------------------------------------------------- theorems

  lemma BoundComesFrom(q: LongRequest, b: LongBinding) returns (side: OptionType, k: nat)
    requires q.Valid() && Answers(q, b) && b.Bound?
    ensures Stage(q) == Ok((side, b.expiry)) && BindsAt(q, side, b.expiry, k, b.selected, b)
  {
    side := Stage(q).value.0;
    var c;
    k, c :| BindsAt(q, side, Stage(q).value.1, k, c, b);
  }

  /** A bound contract is on the trend's side and at the expiry the calendar declares, at least two
      days out; it passes every gate of the first pass that anything passes, and nothing that passes
      is closer to the target delta. The looser pass is used exactly when the strict one is empty. */
  lemma BoundIsTheClosest(q: LongRequest, b: LongBinding)
    requires q.Valid() && Answers(q, b) && b.Bound?
    ensures b.selected in q.Universe() && b.selected.contract.expiry == Some(Ordinal(b.expiry))
    ensures Some(b.expiry) == SelectExpiry(q).expiry && Ordinal(b.expiry) - Ordinal(q.asOf) >= 2
    ensures DirectionType(q.base.trend).Some? && b.selected.contract.optionType == DirectionType(q.base.trend)
    ensures b.deltaFallback ==> q.discovery.Some?
    ensures var side := DirectionType(q.base.trend).value;
            b.deltaFallback <==>
              forall c | c in q.Universe() && AtExpiry(b.expiry)(c) :: !Survives(c, side, q.Passes()[0])
    ensures var side, pass := DirectionType(q.base.trend).value, q.Passes()[if b.deltaFallback then 1 else 0];
            && Survives(b.selected, side, pass)
            && forall c | c in q.Universe() && AtExpiry(b.expiry)(c) && Survives(c, side, pass) ::
                 !Closer(c, b.selected)
  {
    var side, k := BoundComesFrom(q, b);
    UniverseIsFromTheFeed(q);
    Expiry.SelectedFacts(ListedExpiries(q.Universe()), q.asOf, q.holidays, q.allowFallbackExpiry, b.expiry);
    SurvivorMembers(q, side, b.expiry, q.Passes()[k]);
    SurvivorMembers(q, side, b.expiry, q.Passes()[0]);
  }

  /** The limits of the pass that bound: the discovery profile's, or without one a delta from 0.45 to 0.65,
      the policy's own open interest and spread, and up to a year. */
  function LimitsOf(q: LongRequest, b: LongBinding): Pass {
    match q.discovery
    case Some((strict, fallback)) => if b.Bound? && b.deltaFallback then fallback else strict
    case None => Pass(0.45, 0.65, q.base.policy.minOpenInterest, q.base.policy.maxSpreadFraction, 0, 365)
  }

  lemma LimitsAreThePass(q: LongRequest, b: LongBinding)
    requires q.Valid() && Answers(q, b)
    ensures b.Bound? && b.deltaFallback ==> |q.Passes()| == 2
    ensures LimitsOf(q, b) == q.Passes()[if b.Bound? && b.deltaFallback then 1 else 0]
  {
    if b.Bound? { BoundIsTheClosest(q, b); }
  }

  /** What a bound contract meets: the gates, the days and the delta range of its pass. */
  lemma BoundMeetsItsLimits(q: LongRequest, b: LongBinding)
    requires q.Valid() && Answers(q, b) && b.Bound?
    ensures var pass, c := LimitsOf(q, b), b.selected;
            && GateReason(c, pass.minOpenInterest, pass.maxSpreadFraction).None? && c.derivatives.Some?
            && pass.dteMin <= c.derivatives.value.daysToExpiry <= pass.dteMax
            && AbsDelta(c).Some? && pass.deltaMin <= AbsDelta(c).value <= pass.deltaMax
  {
    BoundIsTheClosest(q, b);
    LimitsAreThePass(q, b);
  }

  lemma NotCloser(c: Snapshot, selected: Snapshot)
    requires AbsDelta(c).Some? && AbsDelta(selected).Some? && !Closer(c, selected)
    ensures var near, other := D.Abs(AbsDelta(selected).value - 0.55), D.Abs(AbsDelta(c).value - 0.55);
            near <= other && (near == other ==> !StringLess(c.Symbol(), selected.Symbol()))
  {
  }

  lemma SurvivorIsNotCloser(q: LongRequest, b: LongBinding, c: Snapshot, side: OptionType, pass: Pass)
    requires q.Valid() && Answers(q, b) && b.Bound? && c in q.Universe() && AtExpiry(b.expiry)(c)
    requires b.selected.contract.optionType == Some(side) && pass == LimitsOf(q, b) && Survives(c, side, pass)
    ensures !Closer(c, b.selected)
  {
    BoundIsTheClosest(q, b);
    LimitsAreThePass(q, b);
  }

  /** No contract of the same side and expiry that meets them has a delta nearer 0.55, nor one as near and an
      earlier symbol. */
  lemma NoneIsNearer(q: LongRequest, b: LongBinding, c: Snapshot, pass: Pass)
    requires q.Valid() && Answers(q, b) && b.Bound? && c in q.Universe() && pass == LimitsOf(q, b)
    requires c.contract.expiry == Some(Ordinal(b.expiry)) && c.contract.optionType.Some?
    requires c.contract.optionType == b.selected.contract.optionType && c.derivatives.Some? && AbsDelta(c).Some?
    requires GateReason(c, pass.minOpenInterest, pass.maxSpreadFraction).None?
    requires pass.dteMin <= c.derivatives.value.daysToExpiry <= pass.dteMax
    requires pass.deltaMin <= AbsDelta(c).value <= pass.deltaMax
    ensures AbsDelta(b.selected).Some?
    ensures var near, other := D.Abs(AbsDelta(b.selected).value - 0.55), D.Abs(AbsDelta(c).value - 0.55);
            near <= other && (near == other ==> !StringLess(c.Symbol(), b.selected.Symbol()))
  {
    SurvivorIsNotCloser(q, b, c, c.contract.optionType.value, pass);
    BoundMeetsItsLimits(q, b);
    NotCloser(c, b.selected);
  }

  /** What ends a request before any contract is compared, by what it asks for and what is listed. */
  lemma RefusedBeforeTheSearch(q: LongRequest, b: LongBinding)
    requires q.Valid() && Answers(q, b)
    ensures q.base.master.Some? && (forall c | c in q.base.all :: c.Symbol() !in q.base.master.value) ==>
              b == Refused(InstrumentMasterAbsent, Rejected(q.base.all, []))
    ensures b.Bound? ==> q.base.master.Some? ==> exists c :: c in q.base.all && c.Symbol() in q.base.master.value
    ensures !MasterAbsent(q.base) && !q.base.trend.Up? && !q.base.trend.Down? ==>
              b == Refused(DirectionUnresolved, Rejected(q.base.all, []))
    ensures !MasterAbsent(q.base) && (q.base.trend.Up? || q.base.trend.Down?) && SelectExpiry(q).expiry.None? ==>
              && b.Refused? && (b.reason.ExpiryZeroOneDteExcluded? || b.reason.CalendarNoEligibleExpiry?)
              && (b.reason.ExpiryZeroOneDteExcluded? <==> SelectExpiry(q).reason.TooCloseExcluded?)
  {
    if q.base.master.Some? {
      var known := (c: Snapshot) => c.Symbol() in q.base.master.value;
      FilterMembers(known, q.base.all);
      if forall c | c in q.base.all :: c.Symbol() !in q.base.master.value { FilterNone(known, q.base.all); }
    }
  }

  lemma SurvivorMembers(q: LongRequest, side: OptionType, day: Expiry.Day, pass: Pass)
    ensures forall c :: c in Survivors(q, side, day, pass) <==>
              c in q.Universe() && AtExpiry(day)(c) && Survives(c, side, pass)
  {
    FilterMembers(AtExpiry(day), q.Universe());
    FilterMembers(Surviving(side, pass), Filter(AtExpiry(day), q.Universe()));
  }

  /** Its score is one the binding model accepts. */
  lemma BoundScoreInUnit(q: LongRequest, b: LongBinding)
    requires q.Valid() && Answers(q, b) && b.Bound? && b.selected.market.Valid()
    ensures 0.0 <= b.score <= 1.0
  {
    var side, k := BoundComesFrom(q, b);
    CandidateScoreInUnit(b.selected, q.Universe(), q.base.policy, DeltaRangeOf(q.Passes()[k]), q.base.p1, LongRole);
  }

  ghost predicate SameFeed(q: LongRequest, r: LongRequest) {
    r == q.(base := r.base) && Reordered(q.base, r.base) && DistinctSymbols(q.base.all)
  }

  lemma SameUniverse(q: LongRequest, r: LongRequest)
    requires q.Valid() && r.Valid() && SameFeed(q, r)
    ensures forall c :: c in q.Universe() <==> c in r.Universe()
    ensures DistinctSymbols(q.Universe()) && Stage(q) == Stage(r) && q.Passes() == r.Passes()
  {
    ReorderedDesks(q.base, r.base);
    PermutationMembers(q.Universe(), r.Universe());
    UniverseIsFromTheFeed(q);
    UniverseIsFromTheFeed(r);
    ListedMembers(q.Universe());
    ListedMembers(r.Universe());
    Expiry.SelectIgnoresOrder(
      ListedExpiries(q.Universe()), ListedExpiries(r.Universe()), q.asOf, q.holidays, q.allowFallbackExpiry);
  }

  lemma SameSurvivors(q: LongRequest, r: LongRequest, side: OptionType, day: Expiry.Day, pass: Pass)
    requires q.Valid() && r.Valid() && SameFeed(q, r)
    ensures forall c :: c in Survivors(q, side, day, pass) <==> c in Survivors(r, side, day, pass)
    ensures Survivors(q, side, day, pass) == [] <==> Survivors(r, side, day, pass) == []
  {
    SameUniverse(q, r);
    SurvivorMembers(q, side, day, pass);
    SurvivorMembers(r, side, day, pass);
    var a, b := Survivors(q, side, day, pass), Survivors(r, side, day, pass);
    if a != [] { assert a[0] in b; }
    if b != [] { assert b[0] in a; }
  }

  lemma SameFirstPass(q: LongRequest, r: LongRequest, side: OptionType, day: Expiry.Day, k: nat)
    requires q.Valid() && r.Valid() && SameFeed(q, r)
    ensures FirstPass(q, side, day, k) <==> FirstPass(r, side, day, k)
  {
    SameUniverse(q, r);
    forall j | 0 <= j < |q.Passes()|
      ensures Survivors(q, side, day, q.Passes()[j]) == [] <==> Survivors(r, side, day, q.Passes()[j]) == []
    {
      SameSurvivors(q, r, side, day, q.Passes()[j]);
    }
  }

  lemma SameBound(
    q: LongRequest, r: LongRequest, side: OptionType, day: Expiry.Day, k: nat, c: Snapshot, x: LongBinding,
    m: nat, d: Snapshot, y: LongBinding)
    requires q.Valid() && r.Valid() && SameFeed(q, r)
    requires BindsAt(q, side, day, k, c, x) && BindsAt(r, side, day, m, d, y)
    ensures x == y
  {
    SameUniverse(q, r);
    SameFirstPass(q, r, side, day, k);
    SameFirstPass(q, r, side, day, m);
    assert k == m;
    SameSurvivors(q, r, side, day, q.Passes()[k]);
    SurvivorMembers(q, side, day, q.Passes()[k]);
    ClosestIsUnique(Survivors(q, side, day, q.Passes()[k]), c, d);
    DistinctSymbolsDetermine(q.Universe(), c, d);
    CandidateScoreSameMembers(
      c, q.Universe(), r.Universe(), q.base.policy, DeltaRangeOf(q.Passes()[k]), q.base.p1, LongRole);
    RejectedSameMembers(q.base.all, r.base.all, [c.Symbol()]);
  }

  /** The order of the feed changes neither what is bound nor whether anything is. */
  lemma LongOptionIgnoresFeedOrder(q: LongRequest, r: LongRequest, x: LongBinding, y: LongBinding)
    requires q.Valid() && r.Valid() && SameFeed(q, r) && Answers(q, x) && Answers(r, y)
    ensures x.Bound? <==> y.Bound?
    ensures x.Bound? ==> x == y
    ensures x.Refused? ==> x.rejected == y.rejected
  {
    SameUniverse(q, r);
    RejectedSameMembers(q.base.all, r.base.all, []);
    if Stage(q).Ok? {
      var (side, day) := Stage(q).value;
      forall k: nat ensures FirstPass(q, side, day, k) <==> FirstPass(r, side, day, k) {
        SameFirstPass(q, r, side, day, k);
      }
      if exists k :: FirstPass(q, side, day, k) {
        var k, c :| BindsAt(q, side, day, k, c, x);
        var m, d :| BindsAt(r, side, day, m, d, y);
        SameBound(q, r, side, day, k, c, x, m, d, y);
      }
    }
  }
}
