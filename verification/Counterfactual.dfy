/** Value added by agent decisions (src/trading/analytics/counterfactual.py). */
module Counterfactual {
  import opened Decimals

  datatype Action = Abstain | SelectStrikeCandidate | VetoEntry | ReduceSize

  /** A decision joined with what the trade returned at full size. */
  datatype Record = Record(action: Action, multiplier: real, baseline: real)

  datatype Evaluation = Evaluation(
    total: nat, vetoes: nat, vetoSaved: real, vetoMissed: real, netVeto: real,
    downscales: nat, downscaleSaved: real, downscaleMissed: real, netDownscale: real, netAlpha: real)

  /** The size an agent's decision leaves of a trade; it can cut a position, never raise it. */
  function KeptFraction(r: Record): real {
    if r.action.VetoEntry? then 0.0 else if r.multiplier < 1.0 then r.multiplier else 1.0
  }

  /** Change of outcome against full size. */
  function Contribution(r: Record): real { (KeptFraction(r) - 1.0) * r.baseline }

  function TotalContribution(records: seq<Record>): real {
    if records == [] then 0.0
    else TotalContribution(records[..|records| - 1]) + Contribution(records[|records| - 1])
  }

  function Part(r: Record, veto: bool, saved: bool): real {
    if r.action.VetoEntry? != veto then 0.0
    else if saved then Max(0.0, Contribution(r))
    else Max(0.0, -Contribution(r))
  }

  /** Saved or missed R over the vetoes, or over the other decisions. */
  function TotalPart(records: seq<Record>, veto: bool, saved: bool): real {
    if records == [] then 0.0
    else TotalPart(records[..|records| - 1], veto, saved) + Part(records[|records| - 1], veto, saved)
  }

  lemma {:induction false} PartsAddUp(records: seq<Record>)
    ensures TotalPart(records, true, true) - TotalPart(records, true, false)
          + (TotalPart(records, false, true) - TotalPart(records, false, false)) == TotalContribution(records)
  {
    if records != [] { PartsAddUp(records[..|records| - 1]); }
  }

  /** A cut of a losing trade saves, and of a winning one forgoes, the fraction cut. */
  lemma Cut(fraction: real, r: real)
    requires fraction > 0.0
    ensures r < 0.0 ==> fraction * Abs(r) == -(fraction * r) && -(fraction * r) > 0.0
    ensures r > 0.0 ==> fraction * r > 0.0
    ensures (-fraction) * r == -(fraction * r)
    ensures r == 0.0 ==> fraction * r == 0.0
  {
  }

  lemma PartsOf(item: Record, reduction: real, r: real)
    requires r == item.baseline && reduction == 1.0 - item.multiplier
    ensures Part(item, true, true) == if item.action.VetoEntry? && r < 0.0 then Abs(r) else 0.0
    ensures Part(item, true, false) == if item.action.VetoEntry? && r > 0.0 then r else 0.0
    ensures Part(item, false, true)
         == if !item.action.VetoEntry? && item.multiplier < 1.0 && r < 0.0 then reduction * Abs(r) else 0.0
    ensures Part(item, false, false)
         == if !item.action.VetoEntry? && item.multiplier < 1.0 && r > 0.0 then reduction * r else 0.0
  {
    if !item.action.VetoEntry? && item.multiplier < 1.0 {
      Cut(reduction, r);
      assert Contribution(item) == (-reduction) * r;
    }
  }

  function CountVetoes(records: seq<Record>): nat {
    if records == [] then 0
    else CountVetoes(records[..|records| - 1]) + if records[|records| - 1].action.VetoEntry? then 1 else 0
  }

  /** Decisions that cut the size without vetoing. */
  function CountDownscales(records: seq<Record>): nat {
    if records == [] then 0
    else
      var r := records[|records| - 1];
      CountDownscales(records[..|records| - 1]) + if !r.action.VetoEntry? && r.multiplier < 1.0 then 1 else 0
  }

  lemma TotalsStep(records: seq<Record>, i: nat)
    requires i < |records|
    ensures CountVetoes(records[..i + 1]) == CountVetoes(records[..i]) + if records[i].action.VetoEntry? then 1 else 0
    ensures CountDownscales(records[..i + 1]) == CountDownscales(records[..i])
              + if !records[i].action.VetoEntry? && records[i].multiplier < 1.0 then 1 else 0
    ensures forall veto, saved :: TotalPart(records[..i + 1], veto, saved)
              == TotalPart(records[..i], veto, saved) + Part(records[i], veto, saved)
  {
    assert records[..i + 1][..i] == records[..i];
  }

  /** Six accumulators in one pass; the net alpha is the total change of outcome, whatever the
      signs of the baselines. */
  method EvaluateCounterfactuals(records: seq<Record>) returns (e: Evaluation)
    ensures e.netAlpha == TotalContribution(records)
    ensures e.vetoSaved == TotalPart(records, true, true) && e.vetoMissed == TotalPart(records, true, false)
    ensures e.downscaleSaved == TotalPart(records, false, true)
    ensures e.downscaleMissed == TotalPart(records, false, false)
    ensures e.netVeto == e.vetoSaved - e.vetoMissed && e.netDownscale == e.downscaleSaved - e.downscaleMissed
    ensures e.netAlpha == e.netVeto + e.netDownscale
    ensures e.total == |records| && e.vetoes == CountVetoes(records)
    ensures e.downscales == CountDownscales(records) && e.vetoes + e.downscales <= e.total
  {
    var vetoes, vetoSaved, vetoMissed := 0, 0.0, 0.0;
    var downscales, downscaleSaved, downscaleMissed := 0, 0.0, 0.0;
    for i := 0 to |records|
      invariant vetoes == CountVetoes(records[..i]) && downscales == CountDownscales(records[..i])
      invariant vetoes + downscales <= i
      invariant vetoSaved == TotalPart(records[..i], true, true)
      invariant vetoMissed == TotalPart(records[..i], true, false)
      invariant downscaleSaved == TotalPart(records[..i], false, true)
      invariant downscaleMissed == TotalPart(records[..i], false, false)
    {
      var item := records[i];
      var r := item.baseline;
      TotalsStep(records, i);
      PartsOf(item, 1.0 - item.multiplier, r);
      if item.action.VetoEntry? {
        vetoes := vetoes + 1;
        if r < 0.0 {
          vetoSaved := vetoSaved + Abs(r);
        } else if r > 0.0 {
          vetoMissed := vetoMissed + r;
        }
      } else if item.multiplier < 1.0 {
        downscales := downscales + 1;
        var reduction := 1.0 - item.multiplier;
        if r < 0.0 {
          downscaleSaved := downscaleSaved + reduction * Abs(r);
        } else if r > 0.0 {
          downscaleMissed := downscaleMissed + reduction * r;
        }
      }
    }
    assert records[..|records|] == records;
    PartsAddUp(records);
    var netVeto, netDownscale := vetoSaved - vetoMissed, downscaleSaved - downscaleMissed;
    e := Evaluation(
      |records|, vetoes, vetoSaved, vetoMissed, netVeto,
      downscales, downscaleSaved, downscaleMissed, netDownscale, netVeto + netDownscale);
  }
}
