/** The portfolio stress report (src/trading/analytics/stress.py). */
module Stress {
  import opened Wrappers
  import opened Decimals

  datatype Currency = INR | USD

  datatype Money = Money(amount: real, currency: Currency)

  /** What stress needs of a position: its stuck loss and its linear sensitivities. */
  datatype Position = Position(maxLoss: Money, deltaPerPct: Money, vegaPerPct: Money, definedRisk: bool)

  datatype Scenario = Scenario(name: string, spotShock: real, ivShock: real, noFills: bool)

  const DEFAULT_SCENARIOS: seq<Scenario> := [
    Scenario("GAP_DOWN_3", -3.0, 0.0, false),
    Scenario("GAP_DOWN_5", -5.0, 0.0, false),
    Scenario("GAP_DOWN_8", -8.0, 0.0, false),
    Scenario("GAP_UP_5", 5.0, 0.0, false),
    Scenario("IV_SPIKE_50", 0.0, 50.0, false),
    Scenario("IV_CRUSH_30", 0.0, -30.0, false),
    Scenario("GAP_DOWN_5_IV_SPIKE_50", -5.0, 50.0, false),
    Scenario("LIQUIDITY_EVAPORATION", -5.0, 30.0, true),
    Scenario("BROKER_OUTAGE_1_SESSION", -8.0, 50.0, true)
  ]

  datatype StressError =
    | CurrencyMismatch | NegativeMaxLoss | UnitError | EquityNotPositive | NoScenarios | BudgetOutOfRange

  function Shock(p: Position, s: Scenario): real {
    p.deltaPerPct.amount * s.spotShock + p.vegaPerPct.amount * s.ivShock
  }

  /** P&L of one position in one scenario: stuck for the full loss, or the shock, which a defined
      risk clamps at that loss. */
  function Leg(p: Position, s: Scenario): real {
    if s.noFills then -p.maxLoss.amount
    else if p.definedRisk then Max(-p.maxLoss.amount, Shock(p, s))
    else Shock(p, s)
  }

  /** A pure move of the spot does not reach the volatility sensitivity, nor a pure move of volatility
      the spot's; an unclamped position that gains on a rise of one loses as much on the same fall. */
  lemma ShocksReachTheirOwnSensitivity(p: Position, s: Scenario, other: Money)
    ensures s.ivShock == 0.0 ==> Leg(p.(vegaPerPct := other), s) == Leg(p, s)
    ensures s.spotShock == 0.0 ==> Leg(p.(deltaPerPct := other), s) == Leg(p, s)
    ensures !p.definedRisk && !s.noFills ==>
              Leg(p, s) == -Leg(p, s.(spotShock := -s.spotShock, ivShock := -s.ivShock))
  {
    assert -s.spotShock * p.deltaPerPct.amount == -(s.spotShock * p.deltaPerPct.amount);
    assert -s.ivShock * p.vegaPerPct.amount == -(s.ivShock * p.vegaPerPct.amount);
  }

  /** One percent down takes one percent's delta from an unclamped position, one point of volatility up
      gives it one point's vega. */
  lemma UnitShocks(p: Position, name: string)
    requires !p.definedRisk
    ensures Leg(p, Scenario(name, -1.0, 0.0, false)) == -p.deltaPerPct.amount
    ensures Leg(p, Scenario(name, 0.0, 1.0, false)) == p.vegaPerPct.amount
  {
  }

  /** Defining the risk caps the loss at the stated one and changes nothing above it; without fills the
      stated loss is what is lost. */
  lemma DefinedRiskFloorsTheShock(p: Position, s: Scenario)
    requires p.definedRisk
    ensures Leg(p, s) >= -p.maxLoss.amount
    ensures s.noFills ==> Leg(p, s) == -p.maxLoss.amount
    ensures !s.noFills ==>
              var open := Leg(p.(definedRisk := false), s);
              Leg(p, s) >= open && (open >= -p.maxLoss.amount ==> Leg(p, s) == open)
  {
  }

  function Total(positions: seq<Position>, s: Scenario): real {
    if positions == [] then 0.0
    else Total(positions[..|positions| - 1], s) + Leg(positions[|positions| - 1], s)
  }

  /** The loss is stated and not negative, and the money added up is all in the account's currency.
      A shock that the clamp replaces is never added, so only its own two parts must agree. */
  predicate Addable(p: Position, s: Scenario, currency: Currency) {
    && p.maxLoss.currency == currency && p.maxLoss.amount >= 0.0
    && (!s.noFills ==>
          && p.deltaPerPct.currency == p.vegaPerPct.currency
          && (p.deltaPerPct.currency == currency || (p.definedRisk && Shock(p, s) < -p.maxLoss.amount)))
  }

  /** Why a position cannot be added, if so: its loss is first checked for its currency and sign. */
  function Fault(p: Position, s: Scenario, currency: Currency): Option<StressError> {
    if p.maxLoss.currency != currency then Some(CurrencyMismatch)
    else if p.maxLoss.amount < 0.0 then Some(NegativeMaxLoss)
    else if !Addable(p, s, currency) then Some(UnitError)
    else None
  }

  /** The first position that cannot be added is the one reported. */
  ghost predicate FirstFault(positions: seq<Position>, s: Scenario, currency: Currency, error: StressError) {
    exists i ::
      && 0 <= i < |positions| && Fault(positions[i], s, currency) == Some(error)
      && forall j | 0 <= j < i :: Addable(positions[j], s, currency)
  }

  /** `_scenario_pnl`. */
  method ScenarioPnl(positions: seq<Position>, s: Scenario, currency: Currency) returns (r: Result<Money, StressError>)
    ensures r.Ok? <==> forall i | 0 <= i < |positions| :: Addable(positions[i], s, currency)
    ensures r.Ok? ==> r.value == Money(Total(positions, s), currency)
    ensures r.Err? ==> FirstFault(positions, s, currency, r.error)
  {
    var total := 0.0;
    for i := 0 to |positions|
      invariant total == Total(positions[..i], s)
      invariant forall j | 0 <= j < i :: Addable(positions[j], s, currency)
    {
      assert positions[..i + 1][..i] == positions[..i];
      var p := positions[i];
      assert Fault(positions[i], s, currency) == Fault(p, s, currency);
      if p.maxLoss.currency != currency {
        return Err(CurrencyMismatch);
      }
      if p.maxLoss.amount < 0.0 {
        return Err(NegativeMaxLoss);
      }
      var leg;
      if s.noFills {
        leg := Money(-p.maxLoss.amount, currency);
      } else {
        if p.deltaPerPct.currency != p.vegaPerPct.currency {
          return Err(UnitError);
        }
        var shock := Money(Shock(p, s), p.deltaPerPct.currency);
        if p.definedRisk {
          var floor := Money(-p.maxLoss.amount, currency);
          leg := if shock.amount >= floor.amount then shock else floor;
        } else {
          leg := shock;
        }
      }
      if leg.currency != currency {
        return Err(UnitError);
      }
      total := total + leg.amount;
    }
    assert positions[..|positions|] == positions;
    return Ok(Money(total, currency));
  }

  /** The worst scenario total. */
  function Worst(positions: seq<Position>, scenarios: seq<Scenario>): real
    requires scenarios != []
  {
    var n := |scenarios| - 1;
    if n == 0 then Total(positions, scenarios[0])
    else Min(Worst(positions, scenarios[..n]), Total(positions, scenarios[n]))
  }

  datatype Flag = TailBudgetBreached | UndefinedRiskPresent | DefinedRiskOnly | WorstCaseIsNoFills

  datatype Report = Report(
    results: seq<real>, worst: real, worstNoFills: bool, breached: bool, flags: set<Flag>)

  ghost predicate AllAddable(positions: seq<Position>, scenarios: seq<Scenario>, currency: Currency) {
    forall i, k | 0 <= i < |positions| && 0 <= k < |scenarios| :: Addable(positions[i], scenarios[k], currency)
  }

  predicate AllDefined(positions: seq<Position>) {
    forall i | 0 <= i < |positions| :: positions[i].definedRisk
  }

  /** The first scenario in which some position cannot be added reports its first one. */
  ghost predicate FirstFaultyScenario(
    positions: seq<Position>, scenarios: seq<Scenario>, currency: Currency, error: StressError)
  {
    exists k ::
      && 0 <= k < |scenarios| && FirstFault(positions, scenarios[k], currency, error)
      && AllAddable(positions, scenarios[..k], currency)
  }

  /** The total of every scenario. */
  method EachTotal(positions: seq<Position>, scenarios: seq<Scenario>, currency: Currency)
    returns (r: Result<seq<real>, StressError>)
    ensures r.Ok? <==> AllAddable(positions, scenarios, currency)
    ensures r.Err? ==> FirstFaultyScenario(positions, scenarios, currency, r.error)
    ensures r.Ok? ==> |r.value| == |scenarios|
    ensures r.Ok? ==> forall k | 0 <= k < |r.value| :: r.value[k] == Total(positions, scenarios[k])
  {
    var results := [];
    for k := 0 to |scenarios|
      invariant |results| == k && AllAddable(positions, scenarios[..k], currency)
      invariant forall j | 0 <= j < k :: results[j] == Total(positions, scenarios[j])
    {
      var pnl := ScenarioPnl(positions, scenarios[k], currency);
      if pnl.Err? {
        return Err(pnl.error);
      }
      results := results + [pnl.value.amount];
    }
    r := Ok(results);
  }

  /** `min(results, key=pnl)`: the first of the worst ones. */
  method FirstWorst(results: seq<real>) returns (worst: nat)
    requires results != []
    ensures worst < |results|
    ensures forall k | 0 <= k < |results| :: results[k] >= results[worst]
    ensures forall k | 0 <= k < worst :: results[k] > results[worst]
  {
    worst := 0;
    for k := 1 to |results|
      invariant worst < k
      invariant forall j | 0 <= j < k :: results[j] >= results[worst]
      invariant forall j | 0 <= j < worst :: results[j] > results[worst]
    {
      if results[k] < results[worst] { worst := k; }
    }
  }

  lemma {:induction false} WorstIsLeast(positions: seq<Position>, scenarios: seq<Scenario>) returns (k: nat)
    requires scenarios != []
    ensures forall j | 0 <= j < |scenarios| :: Worst(positions, scenarios) <= Total(positions, scenarios[j])
    ensures k < |scenarios| && Worst(positions, scenarios) == Total(positions, scenarios[k])
  {
    k := |scenarios| - 1;
    if k > 0 {
      var m := WorstIsLeast(positions, scenarios[..k]);
      if Total(positions, scenarios[m]) <= Total(positions, scenarios[k]) { k := m; }
    }
  }

  /** The results, and the first of the worst ones. */
  method RunScenarios(positions: seq<Position>, scenarios: seq<Scenario>, currency: Currency)
    returns (r: Result<seq<real>, StressError>, worst: nat)
    requires scenarios != []
    ensures r.Ok? <==> AllAddable(positions, scenarios, currency)
    ensures r.Err? ==> FirstFaultyScenario(positions, scenarios, currency, r.error)
    ensures r.Ok? ==> |r.value| == |scenarios| && worst < |r.value|
    ensures r.Ok? ==> forall k | 0 <= k < |r.value| :: r.value[k] == Total(positions, scenarios[k])
    ensures r.Ok? ==> r.value[worst] == Worst(positions, scenarios)
    ensures r.Ok? ==> forall k | 0 <= k < worst :: r.value[k] > r.value[worst]
  {
    worst := 0;
    r := EachTotal(positions, scenarios, currency);
    if r.Err? {
      return;
    }
    worst := FirstWorst(r.value);
    var k := WorstIsLeast(positions, scenarios);
  }

  /** The first of the results with this value. */
  ghost predicate FirstWith(results: seq<real>, value: real, w: nat) {
    w < |results| && results[w] == value && forall k | 0 <= k < w :: results[k] != value
  }

  /** What a report says about the book. */
  ghost predicate Reports(
    report: Report, equity: Money, positions: seq<Position>, budget: real, scenarios: seq<Scenario>)
  {
    && scenarios != [] && |report.results| == |scenarios|
    && (forall k | 0 <= k < |scenarios| :: report.results[k] == Total(positions, scenarios[k]))
    && report.worst == Worst(positions, scenarios)
    && (exists w: nat :: FirstWith(report.results, report.worst, w) && report.worstNoFills == scenarios[w].noFills)
    && (report.breached <==> -report.worst > budget * equity.amount)
    && (TailBudgetBreached in report.flags <==> report.breached)
    && (UndefinedRiskPresent in report.flags <==> !AllDefined(positions))
    && (DefinedRiskOnly in report.flags <==> positions != [] && AllDefined(positions))
    && (WorstCaseIsNoFills in report.flags <==> report.worstNoFills)
  }

  /** `build_stress_report`: it raises exactly on a bad equity, budget or scenario list or on money
      that cannot be added; the breach test is on the exact worst case. */
  method BuildStressReport(
    equity: Money, positions: seq<Position>, budget: real, scenarios: seq<Scenario>)
    returns (r: Result<Report, StressError>)
    ensures r.Ok? <==> equity.amount > 0.0 && scenarios != [] && 0.0 < budget <= 1.0
                       && AllAddable(positions, scenarios, equity.currency)
    ensures r.Ok? ==> Reports(r.value, equity, positions, budget, scenarios)
    ensures r == Err(EquityNotPositive) <==> equity.amount <= 0.0
    ensures r == Err(NoScenarios) <==> equity.amount > 0.0 && scenarios == []
    ensures r == Err(BudgetOutOfRange) <==> equity.amount > 0.0 && scenarios != [] && !(0.0 < budget <= 1.0)
    ensures r.Err? && equity.amount > 0.0 && scenarios != [] && 0.0 < budget <= 1.0 ==>
              FirstFaultyScenario(positions, scenarios, equity.currency, r.error)
  {
    if equity.amount <= 0.0 {
      return Err(EquityNotPositive);
    }
    if scenarios == [] {
      return Err(NoScenarios);
    }
    if budget <= 0.0 || budget > 1.0 {
      return Err(BudgetOutOfRange);
    }
    var totals, worst := RunScenarios(positions, scenarios, equity.currency);
    if totals.Err? {
      return Err(totals.error);
    }
    var results := totals.value;
    assert FirstWith(results, results[worst], worst);
    BreachInMoney(-results[worst], equity.amount, budget);
    var breached := -results[worst] / equity.amount > budget;
    var flags := if breached then {TailBudgetBreached} else {};
    if !AllDefined(positions) {
      flags := flags + {UndefinedRiskPresent};
    } else if positions != [] {
      flags := flags + {DefinedRiskOnly};
    }
    if scenarios[worst].noFills { flags := flags + {WorstCaseIsNoFills}; }
    return Ok(Report(results, results[worst], scenarios[worst].noFills, breached, flags));
  }

  lemma BreachInMoney(loss: real, equity: real, budget: real)
    requires equity > 0.0
    ensures loss / equity > budget <==> loss > budget * equity
  {
    DivideTimes(loss, equity);
    assert (loss / equity - budget) * equity == loss - budget * equity;
    PositiveProduct(loss / equity - budget, equity);
  }

  lemma PositiveProduct(a: real, b: real)
    requires b > 0.0
    ensures a > 0.0 <==> a * b > 0.0
  {
  }

  datatype Freeze = Freeze(entriesBlocked: bool)

  /** `build_stress_entry_freeze`. */
  function EntryFreeze(report: Report): Option<Freeze> {
    if !report.breached then None else Some(Freeze(true))
  }

  // ---------------------------------------------------------------------- coherence

  lemma {:induction false} TotalAppend(a: seq<Position>, b: seq<Position>, s: Scenario)
    ensures Total(a + b, s) == Total(a, s) + Total(b, s)
  {
    if b == [] {
      assert a + b == a;
    } else {
      var n := |b| - 1;
      assert (a + b)[..|a + b| - 1] == a + b[..n];
      TotalAppend(a, b[..n], s);
    }
  }

  /** Putting two books together is never worse than the two worst cases added: one scenario must
      hit both. */
  lemma {:induction false} WorstIsSuperadditive(a: seq<Position>, b: seq<Position>, scenarios: seq<Scenario>)
    requires scenarios != []
    ensures Worst(a + b, scenarios) >= Worst(a, scenarios) + Worst(b, scenarios)
  {
    var n := |scenarios| - 1;
    TotalAppend(a, b, scenarios[n]);
    if n > 0 { WorstIsSuperadditive(a, b, scenarios[..n]); }
  }

  function MaxLosses(positions: seq<Position>): real {
    if positions == [] then 0.0
    else MaxLosses(positions[..|positions| - 1]) + positions[|positions| - 1].maxLoss.amount
  }

  lemma {:induction false} DefinedRiskFloor(positions: seq<Position>, s: Scenario)
    requires AllDefined(positions)
    ensures Total(positions, s) >= -MaxLosses(positions)
    ensures s.noFills ==> Total(positions, s) == -MaxLosses(positions)
  {
    if positions != [] { DefinedRiskFloor(positions[..|positions| - 1], s); }
  }

  predicate SomeNoFills(scenarios: seq<Scenario>) {
    exists k :: 0 <= k < |scenarios| && scenarios[k].noFills
  }

  /** With defined risk only, no scenario loses more than the stated losses, and one that assumes no
      fills loses exactly them. */
  lemma {:induction false} WorstOfDefinedRisk(positions: seq<Position>, scenarios: seq<Scenario>)
    requires scenarios != [] && AllDefined(positions)
    ensures Worst(positions, scenarios) >= -MaxLosses(positions)
    ensures SomeNoFills(scenarios) ==> Worst(positions, scenarios) == -MaxLosses(positions)
  {
    var n := |scenarios| - 1;
    DefinedRiskFloor(positions, scenarios[n]);
    if n > 0 {
      WorstOfDefinedRisk(positions, scenarios[..n]);
      if SomeNoFills(scenarios) && !scenarios[n].noFills {
        var k :| 0 <= k < |scenarios| && scenarios[k].noFills;
        assert scenarios[..n][k].noFills;
      }
    }
  }

  /** The standing scenario list always has such a scenario. */
  lemma DefaultScenariosAssumeNoFills()
    ensures SomeNoFills(DEFAULT_SCENARIOS)
  {
    assert DEFAULT_SCENARIOS[7].noFills;
  }

  lemma OneShock(p: Position, s: Scenario)
    requires !p.definedRisk
    ensures Total([p], s) == if s.noFills then -p.maxLoss.amount else Shock(p, s)
  {
    assert [p][..0] == [];
  }

  lemma StandingShocks(p: Position)
    requires !p.definedRisk
    ensures var delta, vega, s := p.deltaPerPct.amount, p.vegaPerPct.amount, DEFAULT_SCENARIOS;
            && |s| == 9
            && Total([p], s[0]) == -3.0 * delta && Total([p], s[1]) == -5.0 * delta
            && Total([p], s[2]) == -8.0 * delta && Total([p], s[3]) == 5.0 * delta
            && Total([p], s[4]) == 50.0 * vega && Total([p], s[5]) == -30.0 * vega
            && Total([p], s[6]) == 50.0 * vega - 5.0 * delta
            && Total([p], s[7]) == Total([p], s[8]) == -p.maxLoss.amount
  {
    var s := DEFAULT_SCENARIOS;
    OneShock(p, s[0]);
    OneShock(p, s[1]);
    OneShock(p, s[2]);
    OneShock(p, s[3]);
    OneShock(p, s[4]);
    OneShock(p, s[5]);
    OneShock(p, s[6]);
    OneShock(p, s[7]);
    OneShock(p, s[8]);
  }

  /** What the standing scenarios can cost one unclamped position: eight percent down or five up on its
      delta, thirty points of volatility down or fifty up on its vega, or else the stated loss. */
  lemma StandingScenariosReach(p: Position)
    requires !p.definedRisk && (p.deltaPerPct.amount == 0.0 || p.vegaPerPct.amount == 0.0)
    ensures var delta, vega, stuck := p.deltaPerPct.amount, p.vegaPerPct.amount, -p.maxLoss.amount;
            Worst([p], DEFAULT_SCENARIOS) ==
              Min(stuck, if vega == 0.0 then Min(-8.0 * delta, 5.0 * delta) else Min(-30.0 * vega, 50.0 * vega))
  {
    var k := WorstIsLeast([p], DEFAULT_SCENARIOS);
    StandingShocks(p);
    assert forall i | 0 <= i < 9 :: Worst([p], DEFAULT_SCENARIOS) <= Total([p], DEFAULT_SCENARIOS[i]);
  }

  /** So for a defined-risk book under the standing scenarios, entries freeze exactly when the stated
      losses add up to more than the budget. */
  lemma FreezeIsExact(report: Report, equity: Money, positions: seq<Position>, budget: real)
    requires AllDefined(positions) && Reports(report, equity, positions, budget, DEFAULT_SCENARIOS)
    ensures EntryFreeze(report) ==
              if MaxLosses(positions) > budget * equity.amount then Some(Freeze(true)) else None
  {
    DefaultScenariosAssumeNoFills();
    WorstOfDefinedRisk(positions, DEFAULT_SCENARIOS);
  }

  /** And adding a defined-risk position never helps: it costs exactly its own stated loss. */
  lemma AddingNeverHelps(positions: seq<Position>, p: Position, scenarios: seq<Scenario>)
    requires scenarios != [] && SomeNoFills(scenarios) && AllDefined(positions) && p.definedRisk
    requires p.maxLoss.amount >= 0.0
    ensures Worst(positions + [p], scenarios) == Worst(positions, scenarios) - p.maxLoss.amount
         <= Worst(positions, scenarios)
  {
    assert (positions + [p])[..|positions|] == positions;
    WorstOfDefinedRisk(positions, scenarios);
    WorstOfDefinedRisk(positions + [p], scenarios);
  }
}
