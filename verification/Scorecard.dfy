/** The cohort fold (src/trading/analytics/scorecard.py:73-235). */
module Scorecard {
  import opened Wrappers
  import opened Decimals
  import opened Primitives
  import opened Fills
  import opened Equity

  /** One signal of a cohort; `Code` identifies a reason. */
  datatype CohortSignal<Code(==)> = CohortSignal(
    declined: bool, rejection: Option<Code>, riskReasons: seq<Code>, riskRejected: bool,
    entry: Option<Command>, entryQuote: Option<Quote>, entryThrough: bool,
    exit: Option<Command>, exitQuote: Option<Quote>, exitThrough: bool, lots: nat)
  {
    predicate Valid() {
      && lots > 0
      && (declined ==> rejection.Some?)
      && (entry.Some? ==> entry.value.Valid()) && (exit.Some? ==> exit.value.Valid())
      && (entryQuote.Some? ==> entryQuote.value.Valid()) && (exitQuote.Some? ==> exitQuote.value.Valid())
    }

    /** The signal reaches the fill simulator. */
    predicate Attempted() { !declined && !riskRejected && entry.Some? && entryQuote.Some? }

    function Trade(): (t: Signal)
      requires Valid() && Attempted()
      ensures t.Valid()
    {
      Signal(entry.value, entryQuote.value, entryThrough, exit, exitQuote, exitThrough, lots)
    }

    /** A decline contributes only its own reason; otherwise the risk reasons and the rejection,
        the latter only where risk did not already give it. */
    function Reasons(): seq<Code> {
      var own := if rejection.Some? then [rejection.value] else [];
      if declined then own
      else riskReasons + (if rejection.Some? && rejection.value !in riskReasons then own else [])
    }
  }

  /** How often a signal counts for a reason: a decline for its own only; otherwise every risk reason as often
      as it was given, and the rejection once if risk did not give it. */
  lemma ReasonsCount<Code>(s: CohortSignal<Code>, reason: Code)
    ensures s.declined ==> multiset(s.Reasons())[reason] == if s.rejection == Some(reason) then 1 else 0
    ensures !s.declined && reason in s.riskReasons ==>
              multiset(s.Reasons())[reason] == multiset(s.riskReasons)[reason]
    ensures !s.declined && reason !in s.riskReasons ==>
              multiset(s.Reasons())[reason] == if s.rejection == Some(reason) then 1 else 0
  {
    if s.rejection.Some? {
      var own := [s.rejection.value];
      assert multiset(s.riskReasons + own) == multiset(s.riskReasons) + multiset(own);
    }
    assert s.riskReasons + [] == s.riskReasons;
  }

  datatype Attempt = Attempt(entry: Fill, close: Option<(real, Fill)>, lots: nat)

  /** What the fold sees of a signal once its fills are simulated. */
  datatype Decision<Code> = Decision(declined: bool, reasons: seq<Code>, attempt: Option<Attempt>)

  function Decide<Code(==)>(s: CohortSignal<Code>, policy: Policy): Decision<Code>
    requires s.Valid()
  {
    Decision(s.declined, s.Reasons(),
             if s.Attempted() then Some(Attempt(EntryFill(s.Trade(), policy), Close(s.Trade(), policy), s.lots))
             else None)
  }

  predicate CostsOk(f: Fill) { f.confirmed || !f.outcome.Filled? }

  function PerLot(policy: Policy): real { policy.chargesPerLot.GetOr(0.0) }

  /** `per_lot * lots`, as repeated addition. */
  function Fee(perLot: real, lots: nat): real {
    if lots == 0 then 0.0 else Fee(perLot, lots - 1) + perLot
  }

  lemma {:induction false} FeeIsProduct(perLot: real, lots: nat)
    ensures Fee(perLot, lots) == perLot * lots as real
  {
    if lots > 0 {
      FeeIsProduct(perLot, lots - 1);
      assert perLot * lots as real == perLot * (lots - 1) as real + perLot;
    }
  }

  lemma {:induction false} FeeAdds(perLot: real, a: nat, b: nat)
    ensures Fee(perLot, a + b) == Fee(perLot, a) + Fee(perLot, b)
  {
    if b > 0 { FeeAdds(perLot, a, b - 1); }
  }

  function FeeIfVerified(chargesPerLot: Option<real>, lots: nat): Option<real> {
    if chargesPerLot.Some? then Some(Fee(chargesPerLot.value, lots)) else None
  }

  lemma FeeIsCharge(chargesPerLot: Option<real>, lots: nat)
    ensures FeeIfVerified(chargesPerLot, lots) == Charges(chargesPerLot, lots)
  {
    if chargesPerLot.Some? {
      FeeIsProduct(chargesPerLot.value, lots);
      var fee, charge := FeeIfVerified(chargesPerLot, lots), Charges(chargesPerLot, lots);
      assert charge.value == chargesPerLot.value * lots as real;
      assert fee.value == Fee(chargesPerLot.value, lots);
      assert fee.value == charge.value;
    }
  }

  /** A filled order pays the per-lot charge where it is verified, and otherwise carries neither
      an amount nor a confirmation. */
  predicate ChargedPerLot(f: Fill, lots: nat, policy: Policy) {
    f.outcome.Filled? && f.price.Some?
      && f.confirmed == policy.chargesPerLot.Some? && f.charges == FeeIfVerified(policy.chargesPerLot, lots)
  }

  /** The simulator never leaves a partial fill; only a filled entry closes. */
  predicate SoundAttempt(a: Attempt, policy: Policy) {
    && !a.entry.outcome.Partial?
    && (a.entry.outcome.Filled? <==> a.entry.price.Some?)
    && (a.entry.outcome.Filled? ==> ChargedPerLot(a.entry, a.lots, policy))
    && (a.close.Some? ==> a.entry.outcome.Filled? && ChargedPerLot(a.close.value.1, a.lots, policy))
  }

  predicate Sound<Code>(d: Decision<Code>, policy: Policy) {
    d.attempt.Some? ==> !d.declined && SoundAttempt(d.attempt.value, policy)
  }

  lemma SimulatedFillFacts(command: Command, quote: Quote, policy: Policy, through: bool, lots: nat)
    requires command.Valid() && quote.Valid()
    ensures var f := Simulate(command, quote, policy, Some(through), lots);
            && f.Ok? && !f.value.outcome.Partial?
            && (f.value.outcome.Filled? <==> f.value.price.Some?)
            && (f.value.outcome.Filled? ==> ChargedPerLot(f.value, lots, policy))
  {
    SimulatedFillsAreValid(command, quote, policy, Some(through), lots);
    FeeIsCharge(policy.chargesPerLot, lots);
  }

  lemma DecideIsSound<Code>(s: CohortSignal<Code>, policy: Policy)
    requires s.Valid()
    ensures Sound(Decide(s, policy), policy)
  {
    if s.Attempted() {
      SimulatedFillFacts(s.entry.value, s.entryQuote.value, policy, s.entryThrough, s.lots);
      if Close(s.Trade(), policy).Some? {
        SimulatedFillFacts(s.exit.value, s.exitQuote.value, policy, s.exitThrough, s.lots);
      }
    }
  }

  // ---------------------------------------------------------------- specification

  datatype Counted = Attempts | Declines | Entries(outcome: Outcome) | Closings

  predicate Counts<Code>(kind: Counted, d: Decision<Code>) {
    match kind
    case Attempts => d.attempt.Some?
    case Declines => d.declined
    case Entries(outcome) => d.attempt.Some? && d.attempt.value.entry.outcome == outcome
    case Closings => d.attempt.Some? && d.attempt.value.close.Some?
  }

  function Bump(b: bool): nat { if b then 1 else 0 }

  function Count<Code>(kind: Counted, ds: seq<Decision<Code>>): nat {
    if ds == [] then 0 else Count(kind, ds[..|ds| - 1]) + Bump(Counts(kind, ds[|ds| - 1]))
  }

  function PnlOf<Code>(d: Decision<Code>): seq<real> {
    if Counts(Closings, d) then [d.attempt.value.close.value.0] else []
  }

  /** P&L of the closed signals, in cohort order. */
  function ClosedPnls<Code>(ds: seq<Decision<Code>>): seq<real> {
    if ds == [] then [] else ClosedPnls(ds[..|ds| - 1]) + PnlOf(ds[|ds| - 1])
  }

  function LotsOf<Code>(d: Decision<Code>): nat {
    (if Counts(Entries(Filled), d) then d.attempt.value.lots else 0)
      + (if Counts(Closings, d) then d.attempt.value.lots else 0)
  }

  /** Lots that changed hands: filled entries, and the exits of closed signals. */
  function LotsTraded<Code>(ds: seq<Decision<Code>>): nat {
    if ds == [] then 0 else LotsTraded(ds[..|ds| - 1]) + LotsOf(ds[|ds| - 1])
  }

  function ChargeOf<Code>(d: Decision<Code>): real {
    (if Counts(Entries(Filled), d) then d.attempt.value.entry.charges.GetOr(0.0) else 0.0)
      + (if Counts(Closings, d) then d.attempt.value.close.value.1.charges.GetOr(0.0) else 0.0)
  }

  function TotalCharges<Code>(ds: seq<Decision<Code>>): real {
    if ds == [] then 0.0 else TotalCharges(ds[..|ds| - 1]) + ChargeOf(ds[|ds| - 1])
  }

  predicate Confirmed<Code>(d: Decision<Code>) {
    d.attempt.Some? ==>
      CostsOk(d.attempt.value.entry) && (d.attempt.value.close.Some? ==> CostsOk(d.attempt.value.close.value.1))
  }

  predicate AllConfirmed<Code>(ds: seq<Decision<Code>>) {
    ds == [] || (AllConfirmed(ds[..|ds| - 1]) && Confirmed(ds[|ds| - 1]))
  }

  function AllReasons<Code>(ds: seq<Decision<Code>>): seq<Code> {
    if ds == [] then [] else AllReasons(ds[..|ds| - 1]) + ds[|ds| - 1].reasons
  }

  // ------------------------------------------------------------------------- fold

  /** The loop's running figures. */
  datatype Tally<!Code> = Tally(
    attempted: nat, declined: nat, filled: nat, partial: nat, unfilled: nat, rejected: nat,
    closed: seq<real>, charges: real, costsConfirmed: bool, reasons: multiset<Code>)

  datatype Card<!Code> = Card(
    tally: Tally<Code>, gross: real, net: Option<real>, maxDrawdown: real, losingStreak: nat,
    concentration: Option<real>)

  /** Every figure tied to the decisions it counts. */
  ghost predicate Tallies<Code>(t: Tally<Code>, ds: seq<Decision<Code>>) {
    && t.attempted == Count(Attempts, ds)
    && t.declined == Count(Declines, ds)
    && t.filled == Count(Entries(Filled), ds)
    && t.partial == Count(Entries(Partial), ds)
    && t.unfilled == Count(Entries(Unfilled), ds)
    && t.rejected == Count(Entries(Rejected), ds)
    && t.closed == ClosedPnls(ds)
    && (t.costsConfirmed <==> AllConfirmed(ds))
    && t.charges == TotalCharges(ds)
    && t.reasons == multiset(AllReasons(ds))
  }

  function TallyOutcome<Code>(t: Tally<Code>, outcome: Outcome): Tally<Code> {
    match outcome
    case Filled => t.(filled := t.filled + 1)
    case Partial => t.(partial := t.partial + 1)
    case Unfilled => t.(unfilled := t.unfilled + 1)
    case Rejected => t.(rejected := t.rejected + 1)
  }

  /** What one signal adds to every figure. */
  ghost predicate Scored<Code>(t: Tally<Code>, d: Decision<Code>, r: Tally<Code>) {
    && r.attempted == t.attempted + Bump(Counts(Attempts, d))
    && r.declined == t.declined + Bump(Counts(Declines, d))
    && r.filled == t.filled + Bump(Counts(Entries(Filled), d))
    && r.partial == t.partial + Bump(Counts(Entries(Partial), d))
    && r.unfilled == t.unfilled + Bump(Counts(Entries(Unfilled), d))
    && r.rejected == t.rejected + Bump(Counts(Entries(Rejected), d))
    && r.closed == t.closed + PnlOf(d)
    && (r.costsConfirmed <==> t.costsConfirmed && Confirmed(d))
    && r.charges == t.charges + ChargeOf(d)
    && r.reasons == t.reasons + multiset(d.reasons)
  }

  lemma TalliesStep<Code>(t: Tally<Code>, ds: seq<Decision<Code>>, d: Decision<Code>, r: Tally<Code>)
    requires Tallies(t, ds) && Scored(t, d, r)
    ensures Tallies(r, ds + [d])
  {
    assert (ds + [d])[..|ds|] == ds;
  }

  lemma TalliesNext<Code>(t: Tally<Code>, ds: seq<Decision<Code>>, n: nat, r: Tally<Code>)
    requires n < |ds| && Tallies(t, ds[..n]) && Scored(t, ds[n], r)
    ensures Tallies(r, ds[..n + 1])
  {
    TalliesStep(t, ds[..n], ds[n], r);
    assert ds[..n + 1] == ds[..n] + [ds[n]];
  }

  /** One pass of the loop's body. */
  method Score<Code>(t: Tally<Code>, d: Decision<Code>, ghost policy: Policy) returns (r: Tally<Code>)
    requires Sound(d, policy)
    ensures r.attempted == t.attempted + Bump(Counts(Attempts, d))
    ensures r.declined == t.declined + Bump(Counts(Declines, d))
    ensures r.filled == t.filled + Bump(Counts(Entries(Filled), d))
    ensures r.partial == t.partial + Bump(Counts(Entries(Partial), d))
    ensures r.unfilled == t.unfilled + Bump(Counts(Entries(Unfilled), d))
    ensures r.rejected == t.rejected + Bump(Counts(Entries(Rejected), d))
    ensures r.closed == t.closed + PnlOf(d)
    ensures r.costsConfirmed <==> t.costsConfirmed && Confirmed(d)
    ensures r.charges == t.charges + ChargeOf(d)
    ensures r.reasons == t.reasons + multiset(d.reasons)
  {
    r := t.(reasons := t.reasons + multiset(d.reasons));
    if d.declined {
      r := r.(declined := r.declined + 1);
      return;
    }
    if d.attempt.None? {
      return;
    }
    var entry, close := d.attempt.value.entry, d.attempt.value.close;
    r := TallyOutcome(r.(attempted := r.attempted + 1), entry.outcome);
    r := r.(costsConfirmed := r.costsConfirmed && CostsOk(entry));
    if !entry.outcome.Filled? || entry.price.None? {
      return;
    }
    if entry.charges.Some? { r := r.(charges := r.charges + entry.charges.value); }
    if close.None? {
      return;
    }
    var (pnl, exit) := close.value;
    r := r.(costsConfirmed := r.costsConfirmed && CostsOk(exit), closed := r.closed + [pnl]);
    if exit.charges.Some? { r := r.(charges := r.charges + exit.charges.value); }
  }

  predicate ValidCohort<Code>(signals: seq<CohortSignal<Code>>) {
    forall i | 0 <= i < |signals| :: signals[i].Valid()
  }

  function Decisions<Code(==)>(signals: seq<CohortSignal<Code>>, policy: Policy): (ds: seq<Decision<Code>>)
    requires ValidCohort(signals)
    ensures |ds| == |signals| && forall i | 0 <= i < |ds| :: ds[i] == Decide(signals[i], policy)
  {
    seq(|signals|, i requires 0 <= i < |signals| => Decide(signals[i], policy))
  }

  predicate AllSound<Code>(ds: seq<Decision<Code>>, policy: Policy) {
    forall i | 0 <= i < |ds| :: Sound(ds[i], policy)
  }

  lemma DecisionsAreSound<Code>(signals: seq<CohortSignal<Code>>, policy: Policy)
    requires ValidCohort(signals)
    ensures AllSound(Decisions(signals, policy), policy)
  {
    forall i | 0 <= i < |signals| ensures Sound(Decisions(signals, policy)[i], policy) {
      DecideIsSound(signals[i], policy);
    }
  }

  method TallyAll<Code>(ghost ds: seq<Decision<Code>>, signals: seq<CohortSignal<Code>>, policy: Policy)
    returns (t: Tally<Code>)
    requires ValidCohort(signals) && ds == Decisions(signals, policy) && AllSound(ds, policy)
    ensures Tallies(t, ds)
  {
    t := Tally(0, 0, 0, 0, 0, 0, [], 0.0, true, multiset{});
    for n := 0 to |signals|
      invariant Tallies(t, ds[..n])
    {
      assert Sound(ds[n], policy);
      var r := Score(t, Decide(signals[n], policy), policy);
      TalliesNext(t, ds, n, r);
      t := r;
    }
    assert ds[..|ds|] == ds;
  }

  method SumOf(pnls: seq<real>) returns (total: real)
    ensures total == Sum(pnls)
  {
    total := 0.0;
    for i := 0 to |pnls|
      invariant total == Sum(pnls[..i])
    {
      SumLast(pnls, i);
      total := total + pnls[i];
    }
    assert pnls[..|pnls|] == pnls;
  }

  // ------------------------------------------------------------------- conservation

  /** Every attempt ends in exactly one bucket, PARTIAL stays empty, and only filled entries close. */
  lemma {:induction false} AttemptsBalance<Code>(ds: seq<Decision<Code>>, policy: Policy)
    requires AllSound(ds, policy)
    ensures Count(Entries(Filled), ds) + Count(Entries(Unfilled), ds) + Count(Entries(Rejected), ds)
         == Count(Attempts, ds)
    ensures Count(Entries(Partial), ds) == 0
    ensures Count(Attempts, ds) + Count(Declines, ds) <= |ds|
    ensures |ClosedPnls(ds)| == Count(Closings, ds) <= Count(Entries(Filled), ds)
  {
    if ds != [] {
      AttemptsBalance(ds[..|ds| - 1], policy);
      assert Sound(ds[|ds| - 1], policy);
    }
  }

  lemma ChargeOfIsPerLot<Code>(d: Decision<Code>, policy: Policy)
    requires Sound(d, policy)
    ensures ChargeOf(d) == Fee(PerLot(policy), LotsOf(d))
    ensures Confirmed(d) <==> policy.chargesPerLot.Some? || !Counts(Entries(Filled), d)
  {
    if d.attempt.Some? {
      FeeAdds(PerLot(policy), d.attempt.value.lots, d.attempt.value.lots);
      FeeIsProduct(0.0, LotsOf(d));
    }
  }

  /** Charges are the per-lot charge of every lot that changed hands, entries still open included. */
  lemma {:induction false} ChargesArePerLot<Code>(ds: seq<Decision<Code>>, policy: Policy)
    requires AllSound(ds, policy)
    ensures TotalCharges(ds) == Fee(PerLot(policy), LotsTraded(ds))
  {
    if ds != [] {
      var n := |ds| - 1;
      ChargesArePerLot(ds[..n], policy);
      assert Sound(ds[n], policy);
      ChargeOfIsPerLot(ds[n], policy);
      FeeAdds(PerLot(policy), LotsTraded(ds[..n]), LotsOf(ds[n]));
    }
  }

  /** Costs are confirmed exactly when the per-lot charge is verified or nothing filled. */
  lemma {:induction false} ConfirmedWhen<Code>(ds: seq<Decision<Code>>, policy: Policy)
    requires AllSound(ds, policy)
    ensures AllConfirmed(ds) <==> policy.chargesPerLot.Some? || Count(Entries(Filled), ds) == 0
  {
    if ds != [] {
      var n := |ds| - 1;
      ConfirmedWhen(ds[..n], policy);
      assert Sound(ds[n], policy);
      ChargeOfIsPerLot(ds[n], policy);
    }
  }

  /** `build_scorecard`. Attempts split into the outcomes, none of them partial; net is known
      exactly when the per-lot charge is verified or nothing filled, and is then gross less that
      charge on every lot that changed hands. */
  method BuildScorecard<Code>(signals: seq<CohortSignal<Code>>, policy: Policy) returns (card: Card<Code>)
    requires ValidCohort(signals)
    ensures Tallies(card.tally, Decisions(signals, policy))
    ensures var t := card.tally;
            t.filled + t.partial + t.unfilled + t.rejected == t.attempted && t.partial == 0 && |t.closed| <= t.filled
    ensures card.gross == Sum(card.tally.closed)
    ensures card.net.Some? <==> policy.chargesPerLot.Some? || card.tally.filled == 0
    ensures card.net.Some? ==>
              card.net.value == card.gross - Fee(PerLot(policy), LotsTraded(Decisions(signals, policy)))
    ensures IsMaxDrawdown(card.tally.closed, card.maxDrawdown)
    ensures IsLongestLosingRun(card.tally.closed, card.losingStreak)
    ensures IsConcentration(card.tally.closed, card.concentration)
  {
    ghost var ds := Decisions(signals, policy);
    DecisionsAreSound(signals, policy);
    AttemptsBalance(ds, policy);
    ChargesArePerLot(ds, policy);
    ConfirmedWhen(ds, policy);
    var t := TallyAll(ds, signals, policy);
    var gross := SumOf(t.closed);
    var maxDrawdown := MaxDrawdown(t.closed);
    var streak := MaxConsecutiveLosses(t.closed);
    var share := Concentration(t.closed);
    card := Card(
      t, gross, if t.costsConfirmed then Some(gross - t.charges) else None, maxDrawdown, streak, share);
  }
}
