/** Deterministic invalidation conditions (src/trading/analytics/invalidation.py). Observations
    and thresholds are decimals. */
module Invalidation {
  import opened Wrappers

  datatype Comparator = LT | LTE | GT | GTE | EQ | CrossesBelow | CrossesAbove

  datatype Condition = Condition(
    id: string, metric: string, comparator: Comparator, threshold: real, hard: bool)

  type Snapshot = map<string, real>

  datatype Status = Holding | Triggered | MissingObservation

  predicate NeedsPrior(c: Comparator) { c.CrossesBelow? || c.CrossesAbove? }

  /** None where the source raises: a crossing without a previous observation. */
  function Compare(c: Comparator, observed: real, threshold: real, previous: Option<real>): Option<bool> {
    match c
    case LT => Some(observed < threshold)
    case LTE => Some(observed <= threshold)
    case GT => Some(observed > threshold)
    case GTE => Some(observed >= threshold)
    case EQ => Some(observed == threshold)
    case CrossesBelow =>
      if previous.None? then None else Some(previous.value >= threshold && threshold > observed)
    case CrossesAbove =>
      if previous.None? then None else Some(previous.value <= threshold && threshold < observed)
  }

  function Lookup(s: Snapshot, metric: string): Option<real> {
    if metric in s then Some(s[metric]) else None
  }

  function EvaluateCondition(c: Condition, now: Snapshot, previous: Snapshot): Status {
    if c.metric !in now then MissingObservation
    else if NeedsPrior(c.comparator) && c.metric !in previous then MissingObservation
    else
      match Compare(c.comparator, now[c.metric], c.threshold, Lookup(previous, c.metric))
      case Some(fired) => if fired then Triggered else Holding
      case None => MissingObservation
  }

  /** The guards leave no way into the raising branch: a condition is missing exactly when its
      metric, or the prior a crossing needs, was not observed. */
  lemma MissingExactly(c: Condition, now: Snapshot, previous: Snapshot)
    ensures EvaluateCondition(c, now, previous).MissingObservation? <==>
              c.metric !in now || (NeedsPrior(c.comparator) && c.metric !in previous)
    ensures c.metric in now && (NeedsPrior(c.comparator) ==> c.metric in previous) ==>
              Compare(c.comparator, now[c.metric], c.threshold, Lookup(previous, c.metric)).Some?
  {
  }

  // --------------------------------------------------------------------- theses

  datatype Evaluation = Evaluation(statuses: seq<Status>, hard: seq<string>, soft: seq<string>, broken: bool)

  function TriggeredIds(
    conditions: seq<Condition>, now: Snapshot, previous: Snapshot, hard: bool): seq<string>
  {
    if conditions == [] then []
    else
      var rest, c := TriggeredIds(conditions[..|conditions| - 1], now, previous, hard), conditions[|conditions| - 1];
      if EvaluateCondition(c, now, previous).Triggered? && c.hard == hard then rest + [c.id] else rest
  }

  function EvaluateThesis(conditions: seq<Condition>, now: Snapshot, previous: Snapshot): Evaluation {
    var hard := TriggeredIds(conditions, now, previous, true);
    Evaluation(
      seq(|conditions|, i requires 0 <= i < |conditions| => EvaluateCondition(conditions[i], now, previous)),
      hard, TriggeredIds(conditions, now, previous, false), hard != [])
  }

  lemma {:induction false} TriggeredIdsMean(
    conditions: seq<Condition>, now: Snapshot, previous: Snapshot, hard: bool)
    ensures TriggeredIds(conditions, now, previous, hard) != [] <==>
              exists c :: c in conditions && c.hard == hard && EvaluateCondition(c, now, previous).Triggered?
  {
    if conditions != [] {
      var n := |conditions| - 1;
      TriggeredIdsMean(conditions[..n], now, previous, hard);
      assert conditions == conditions[..n] + [conditions[n]];
    }
  }

  /** A thesis breaks exactly when a HARD condition triggers; missing and SOFT ones never break it, and the
      SOFT list is non-empty exactly when a SOFT condition triggers. */
  lemma ThesisBreaksOnHardOnly(conditions: seq<Condition>, now: Snapshot, previous: Snapshot)
    ensures EvaluateThesis(conditions, now, previous).broken <==>
              exists c :: c in conditions && c.hard && EvaluateCondition(c, now, previous).Triggered?
    ensures EvaluateThesis(conditions, now, previous).soft != [] <==>
              exists c :: c in conditions && !c.hard && EvaluateCondition(c, now, previous).Triggered?
  {
    TriggeredIdsMean(conditions, now, previous, true);
    TriggeredIdsMean(conditions, now, previous, false);
  }

  predicate TriggersAs(c: Condition, comparator: Comparator, now: Snapshot, previous: Snapshot) {
    EvaluateCondition(c.(comparator := comparator), now, previous).Triggered?
  }

  /** One observation against one threshold: exactly one of LT, EQ and GT triggers, LTE is the
      opposite of GT, and GTE the opposite of LT. */
  lemma ExactlyOneTriggers(c: Condition, now: Snapshot, previous: Snapshot)
    requires c.metric in now
    ensures var below, at, above :=
              TriggersAs(c, LT, now, previous), TriggersAs(c, EQ, now, previous), TriggersAs(c, GT, now, previous);
            && (below || at || above) && !(below && at) && !(at && above) && !(above && below)
            && (TriggersAs(c, LTE, now, previous) <==> !above)
            && (TriggersAs(c, GTE, now, previous) <==> !below)
  {
  }

  /** A price that falls below a hard LT floor, or rises above a hard GT ceiling, breaks the thesis
      whatever else it holds; where that is its only condition, nothing else breaks it. */
  lemma ThesisBreaksPastTheLevel(conditions: seq<Condition>, c: Condition, now: Snapshot, previous: Snapshot)
    requires c in conditions && c.hard && c.metric in now
    ensures c.comparator.LT? && now[c.metric] < c.threshold ==> EvaluateThesis(conditions, now, previous).broken
    ensures c.comparator.GT? && now[c.metric] > c.threshold ==> EvaluateThesis(conditions, now, previous).broken
    ensures conditions == [c] && c.comparator.LT? ==>
              (EvaluateThesis(conditions, now, previous).broken <==> now[c.metric] < c.threshold)
    ensures conditions == [c] && c.comparator.GT? ==>
              (EvaluateThesis(conditions, now, previous).broken <==> now[c.metric] > c.threshold)
    ensures conditions == [c] && c.comparator.EQ? ==>
              (EvaluateThesis(conditions, now, previous).broken <==> now[c.metric] == c.threshold)
  {
    ThesisBreaksOnHardOnly(conditions, now, previous);
  }

  // ------------------------------------------------------------------ crossings

  /** The condition fires between two consecutive observations of the trace. */
  predicate FiresAt(c: Comparator, threshold: real, trace: seq<real>, k: nat)
    requires k + 1 < |trace|
  {
    Compare(c, trace[k + 1], threshold, Some(trace[k])) == Some(true)
  }

  /** A consecutive trace cannot slip from one side of the threshold to the other unnoticed: it
      must fire on the way, and the reported step really straddles the threshold. */
  lemma {:induction false} CrossingMustFire(c: Comparator, threshold: real, trace: seq<real>)
    returns (k: nat)
    requires NeedsPrior(c) && |trace| >= 2
    requires if c.CrossesBelow? then trace[0] >= threshold > trace[|trace| - 1]
             else trace[0] <= threshold < trace[|trace| - 1]
    ensures k + 1 < |trace| && FiresAt(c, threshold, trace, k)
    ensures forall j | 0 <= j < k :: !FiresAt(c, threshold, trace, j)
    ensures forall j | 0 <= j <= k ::
              if c.CrossesBelow? then trace[j] >= threshold else trace[j] <= threshold
    decreases |trace|
  {
    if FiresAt(c, threshold, trace, 0) {
      k := 0;
    } else {
      var tail := trace[1..];
      k := CrossingMustFire(c, threshold, tail);
      forall j | 0 <= j <= k ensures !FiresAt(c, threshold, trace, j) || j == k + 1 {
        if j > 0 { assert !FiresAt(c, threshold, tail, j - 1); }
      }
      k := k + 1;
      assert FiresAt(c, threshold, tail, k - 1);
      forall j | 0 <= j <= k
        ensures if c.CrossesBelow? then trace[j] >= threshold else trace[j] <= threshold
      {
        if j > 0 { assert trace[j] == tail[j - 1]; }
      }
    }
  }
}
