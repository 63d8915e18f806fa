/** The two-layer breakout study (src/trading/analytics/breakout_evaluation.py:180-440). The
    strategy's verdict on a case is an input. */
module BreakoutStudy {
  import opened Wrappers
  import opened Decimals
  import opened Equity
  import opened Counterfactual

  /** `number` is the integer at the end of the case id. */
  datatype Case = Case(number: int, isFake: bool, baseline: real, entered: bool)

  function Deterministic(c: Case): real { if c.entered then c.baseline else 0.0 }

  datatype Agentic = Agentic(action: Action, multiplier: real, realized: real, savedLoss: real, netAlpha: real)

  /** `evaluate_agentic`. */
  function EvaluateAgentic(c: Case): Agentic {
    if !c.entered then Agentic(Abstain, 0.0, 0.0, 0.0, 0.0)
    else if !c.isFake then Agentic(SelectStrikeCandidate, 1.0, c.baseline * 1.0, 0.0, 0.0)
    else if c.number % 4 != 0 then Agentic(VetoEntry, 0.0, 0.0, Abs(c.baseline), Abs(c.baseline))
    else
      var saved := (1.0 - 0.3) * Abs(c.baseline);
      Agentic(ReduceSize, 0.3, c.baseline * 0.3, saved, saved)
  }

  function RecordOf(c: Case): Record {
    Record(EvaluateAgentic(c).action, EvaluateAgentic(c).multiplier, Deterministic(c))
  }

  predicate AgentTrades(c: Case) {
    EvaluateAgentic(c).action.ReduceSize? || EvaluateAgentic(c).action.SelectStrikeCandidate?
  }

  /** Whatever the agent does, what it realizes is its share of the deterministic result, and it is credited
      with the distance between the two. It trades exactly with a positive share: all of a true breakout,
      three tenths of every fourth fake, and nothing of the other fakes or without a signal. */
  lemma CaseOutcome(c: Case)
    ensures var agent := EvaluateAgentic(c);
            && agent.realized == agent.multiplier * Deterministic(c)
            && agent.savedLoss == agent.netAlpha == Abs(Deterministic(c) - agent.realized)
            && (AgentTrades(c) <==> agent.multiplier > 0.0)
            && (agent.multiplier == 1.0 <==> c.entered && !c.isFake)
            && (agent.multiplier == 0.3 <==> c.entered && c.isFake && c.number % 4 == 0)
            && agent.multiplier in {0.0, 0.3, 1.0}
            && (!c.entered ==> Deterministic(c) == 0.0)
  {
    if c.entered && c.isFake && c.number % 4 == 0 {
      assert Deterministic(c) - EvaluateAgentic(c).realized == 0.7 * c.baseline;
    }
  }

  // -------------------------------------------------------------- what a study lists

  function DetPart(c: Case): seq<real> { if c.entered then [Deterministic(c)] else [] }

  function AgentPart(c: Case): seq<real> { if AgentTrades(c) then [EvaluateAgentic(c).realized] else [] }

  function RecordPart(c: Case): seq<Record> { if c.entered then [RecordOf(c)] else [] }

  function DetPnls(cases: seq<Case>): seq<real> {
    if cases == [] then [] else DetPnls(cases[..|cases| - 1]) + DetPart(cases[|cases| - 1])
  }

  function AgentPnls(cases: seq<Case>): seq<real> {
    if cases == [] then [] else AgentPnls(cases[..|cases| - 1]) + AgentPart(cases[|cases| - 1])
  }

  function Records(cases: seq<Case>): seq<Record> {
    if cases == [] then [] else Records(cases[..|cases| - 1]) + RecordPart(cases[|cases| - 1])
  }

  lemma {:induction false} ContributionAppend(a: seq<Record>, b: seq<Record>)
    ensures TotalContribution(a + b) == TotalContribution(a) + TotalContribution(b)
  {
    if b == [] {
      assert a + b == a;
    } else {
      var n := |b| - 1;
      assert (a + b)[..|a + b| - 1] == a + b[..n];
      ContributionAppend(a, b[..n]);
    }
  }

  lemma SumOfOne(x: real)
    ensures Sum([x]) == x
  {
    assert [x][..0] == [];
  }

  lemma ContributionOfOne(r: Record)
    ensures TotalContribution([r]) == Contribution(r)
  {
    assert [r][..0] == [];
  }

  lemma CaseIsConserved(c: Case)
    ensures Sum(AgentPart(c)) == Sum(DetPart(c)) + TotalContribution(RecordPart(c))
  {
    if c.entered {
      SumOfOne(Deterministic(c));
      SumOfOne(EvaluateAgentic(c).realized);
      ContributionOfOne(RecordOf(c));
    }
  }

  /** Alpha conservation: the agent's total outcome is the deterministic one plus the net alpha,
      for every list of cases and baselines of either sign. */
  lemma {:induction false} AlphaIsConserved(cases: seq<Case>)
    ensures Sum(AgentPnls(cases)) == Sum(DetPnls(cases)) + TotalContribution(Records(cases))
  {
    if cases != [] {
      var front, c := cases[..|cases| - 1], cases[|cases| - 1];
      AlphaIsConserved(front);
      CaseIsConserved(c);
      SumAppend(DetPnls(front), DetPart(c));
      SumAppend(AgentPnls(front), AgentPart(c));
      ContributionAppend(Records(front), RecordPart(c));
    }
  }

  function CaseAlpha(cases: seq<Case>): real {
    if cases == [] then 0.0
    else CaseAlpha(cases[..|cases| - 1]) + EvaluateAgentic(cases[|cases| - 1]).netAlpha
  }

  /** A veto or a cut of a trade that would have won. */
  predicate ForgoesAGain(c: Case) { c.entered && c.isFake && c.baseline > 0.0 }

  predicate NoneForgone(cases: seq<Case>) {
    forall i | 0 <= i < |cases| :: !ForgoesAGain(cases[i])
  }

  /** R by which a case's own alpha exceeds its contribution: twice what was forgone. */
  function Overstated(c: Case): real {
    if !ForgoesAGain(c) then 0.0 else if c.number % 4 != 0 then 2.0 * c.baseline else 1.4 * c.baseline
  }

  lemma CaseAlphaOf(c: Case)
    ensures EvaluateAgentic(c).netAlpha == TotalContribution(RecordPart(c)) + Overstated(c)
    ensures Overstated(c) >= 0.0 && (Overstated(c) == 0.0 <==> !ForgoesAGain(c))
  {
    if c.entered { ContributionOfOne(RecordOf(c)); }
  }

  function TotalOverstated(cases: seq<Case>): real {
    if cases == [] then 0.0 else TotalOverstated(cases[..|cases| - 1]) + Overstated(cases[|cases| - 1])
  }

  lemma {:induction false} CaseAlphasOverstateBy(cases: seq<Case>)
    ensures CaseAlpha(cases) == TotalContribution(Records(cases)) + TotalOverstated(cases)
  {
    if cases != [] {
      var front, c := cases[..|cases| - 1], cases[|cases| - 1];
      CaseAlphasOverstateBy(front);
      CaseAlphaOf(c);
      ContributionAppend(Records(front), RecordPart(c));
    }
  }

  lemma {:induction false} OverstatedWhen(cases: seq<Case>)
    ensures TotalOverstated(cases) >= 0.0
    ensures TotalOverstated(cases) == 0.0 <==> NoneForgone(cases)
  {
    if cases != [] {
      var front, c := cases[..|cases| - 1], cases[|cases| - 1];
      OverstatedWhen(front);
      CaseAlphaOf(c);
      assert cases == front + [c];
      assert NoneForgone(cases) <==> NoneForgone(front) && !ForgoesAGain(c);
    }
  }

  /** The per-case alphas count every intervention as a saving, so their sum overstates the net
      alpha, and agrees with it exactly when no intervention stopped a winner. */
  lemma CaseAlphasOverstate(cases: seq<Case>)
    ensures CaseAlpha(cases) >= TotalContribution(Records(cases))
    ensures CaseAlpha(cases) == TotalContribution(Records(cases)) <==> NoneForgone(cases)
  {
    CaseAlphasOverstateBy(cases);
    OverstatedWhen(cases);
  }

  /** A vetoed winner of one R: the case reports a saving of one R, the study a loss of it. */
  lemma StoppedWinnerCountsAsSaving(number: int)
    requires number % 4 != 0
    ensures var cases := [Case(number, true, 1.0, true)];
            CaseAlpha(cases) == 1.0 && TotalContribution(Records(cases)) == -1.0
  {
    var c := Case(number, true, 1.0, true);
    assert [c][..0] == [];
    ContributionOfOne(RecordOf(c));
    assert [] + RecordPart(c) == [RecordOf(c)];
  }

  // ------------------------------------------------------------------------ the study

  datatype Summary = Summary(
    total: nat, detTrades: nat, detTotal: real, detDrawdown: real, detFactor: real,
    agentTrades: nat, vetoes: nat, agentTotal: real, agentDrawdown: real, agentFactor: real,
    counterfactual: Evaluation)

  datatype StudyError = NoCases

  function Vetoes(cases: seq<Case>): nat {
    if cases == [] then 0
    else Vetoes(cases[..|cases| - 1]) + if EvaluateAgentic(cases[|cases| - 1]).action.VetoEntry? then 1 else 0
  }

  lemma {:induction false} VetoesAppend(a: seq<Record>, b: seq<Record>)
    ensures CountVetoes(a + b) == CountVetoes(a) + CountVetoes(b)
    ensures |b| == 1 ==> CountVetoes(b) == if b[0].action.VetoEntry? then 1 else 0
  {
    if b == [] {
      assert a + b == a;
    } else {
      var n := |b| - 1;
      assert (a + b)[..|a + b| - 1] == a + b[..n];
      VetoesAppend(a, b[..n]);
    }
  }

  lemma VetoedOrTraded(c: Case)
    ensures |DetPart(c)| == (if EvaluateAgentic(c).action.VetoEntry? then 1 else 0) + |AgentPart(c)|
    ensures CountVetoes(RecordPart(c)) == if EvaluateAgentic(c).action.VetoEntry? then 1 else 0
  {
    if c.entered { VetoesAppend([], [RecordOf(c)]); }
  }

  /** Every signalled case is either vetoed or traded by the agent. */
  lemma {:induction false} TradesAreConserved(cases: seq<Case>)
    ensures |DetPnls(cases)| == Vetoes(cases) + |AgentPnls(cases)|
    ensures CountVetoes(Records(cases)) == Vetoes(cases)
  {
    if cases != [] {
      var front, c := cases[..|cases| - 1], cases[|cases| - 1];
      TradesAreConserved(front);
      VetoedOrTraded(c);
      VetoesAppend(Records(front), RecordPart(c));
    }
  }

  lemma ListsStep(cases: seq<Case>, i: nat)
    requires i < |cases|
    ensures DetPnls(cases[..i + 1]) == DetPnls(cases[..i]) + DetPart(cases[i])
    ensures AgentPnls(cases[..i + 1]) == AgentPnls(cases[..i]) + AgentPart(cases[i])
    ensures Records(cases[..i + 1]) == Records(cases[..i]) + RecordPart(cases[i])
    ensures Vetoes(cases[..i + 1]) == Vetoes(cases[..i]) + if EvaluateAgentic(cases[i]).action.VetoEntry? then 1 else 0
  {
    assert cases[..i + 1][..i] == cases[..i];
  }

  /** The loop of `run_scenario_study`. */
  method Collect(cases: seq<Case>)
    returns (det: seq<real>, agent: seq<real>, records: seq<Record>, detTrades: nat, agentTrades: nat, vetoes: nat)
    ensures det == DetPnls(cases) && detTrades == |det|
    ensures agent == AgentPnls(cases) && agentTrades == |agent|
    ensures records == Records(cases) && vetoes == Vetoes(cases)
  {
    det, agent, records := [], [], [];
    detTrades, agentTrades, vetoes := 0, 0, 0;
    for i := 0 to |cases|
      invariant det == DetPnls(cases[..i]) && detTrades == |det|
      invariant agent == AgentPnls(cases[..i]) && agentTrades == |agent|
      invariant records == Records(cases[..i]) && vetoes == Vetoes(cases[..i])
    {
      ListsStep(cases, i);
      var c := cases[i];
      var out := EvaluateAgentic(c);
      if c.entered {
        detTrades := detTrades + 1;
        det := det + [Deterministic(c)];
        records := records + [Record(out.action, out.multiplier, Deterministic(c))];
      }
      if out.action.VetoEntry? {
        vetoes := vetoes + 1;
      } else if out.action.ReduceSize? || out.action.SelectStrikeCandidate? {
        agentTrades := agentTrades + 1;
        agent := agent + [out.realized];
      }
    }
    assert cases[..|cases|] == cases;
  }

  /** The rounded totals reconcile to the cent. */
  lemma TotalsReconcile(det: real, agent: real, alpha: real)
    requires agent == det + alpha
    ensures -0.01 <= Quantize(agent, 100) - (Quantize(det, 100) + alpha) <= 0.01
  {
    QuantizeError(det, 100);
    QuantizeError(agent, 100);
  }

  /** `run_scenario_study`: an empty study raises on its first case. Every signalled case is either
      vetoed or traded, and the two reported totals reconcile with the net alpha to the cent their
      rounding leaves. */
  method RunScenarioStudy(cases: seq<Case>) returns (r: Result<Summary, StudyError>)
    ensures r.Err? <==> cases == []
    ensures r.Ok? ==>
              var s, e := r.value, r.value.counterfactual;
              && s.total == |cases| && s.detTrades == s.vetoes + s.agentTrades == |DetPnls(cases)|
              && e.netAlpha == TotalContribution(Records(cases)) && e.vetoes == s.vetoes
              && s.detTotal == Quantize(Sum(DetPnls(cases)), 100)
              && s.agentTotal == Quantize(Sum(AgentPnls(cases)), 100)
              && -0.01 <= s.agentTotal - (s.detTotal + e.netAlpha) <= 0.01
    ensures r.Ok? ==> Measures(DetPnls(cases), r.value.detDrawdown, r.value.detFactor)
    ensures r.Ok? ==> Measures(AgentPnls(cases), r.value.agentDrawdown, r.value.agentFactor)
  {
    var det, agent, records, detTrades, agentTrades, vetoes := Collect(cases);
    var e := EvaluateCounterfactuals(records);
    var detDrawdown, detFactor := DrawdownAndProfitFactor(det);
    var agentDrawdown, agentFactor := DrawdownAndProfitFactor(agent);
    AlphaIsConserved(cases);
    TradesAreConserved(cases);
    TotalsReconcile(Sum(det), Sum(agent), e.netAlpha);
    if cases == [] {
      return Err(NoCases);
    }
    return Ok(Summary(
      |cases|, detTrades, Quantize(Sum(det), 100), detDrawdown, detFactor,
      agentTrades, vetoes, Quantize(Sum(agent), 100), agentDrawdown, agentFactor, e));
  }
}
