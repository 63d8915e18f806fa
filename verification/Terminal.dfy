/** Terminal policies (src/trading/ai/terminal_policy.py, src/trading/ai/terminal_enforcement.py,
    src/trading/trade/exits.py:448-466): the eligibility gate and the one-way door. */
module Terminal {
  import opened Wrappers
  import opened Invalidation

  datatype Kind = FlattenAtDte | RunToExpiry | FlattenEarlyIfFragile

  datatype Policy = Policy(
    tradeId: string, kind: Kind, flattenDte: Option<nat>, runConditions: seq<Condition>, requested: Kind)

  datatype ExitPolicy = ExitPolicy(tradeId: string, exitBefore: Option<nat>, terminal: Option<Policy>)

  const DEFAULT_FLATTEN_DTE := 1

  // ------------------------------------------------------------------- eligibility

  datatype Structure = LongOption | DebitSpread | CreditSpread | CasOption | CommodityFuture | DirectionalConviction

  datatype RejectReason =
    | AssignmentRisk | StructureNotDefinedRisk | NotCashSettled | MaxLossMismatch | ExtrinsicAboveFloor
    | ExposureCap | LiquidityBelowA | EventRiskNotNormal

  datatype Facts = Facts(
    structure: Structure, assignmentRisk: bool, cashSettled: bool,
    approvedMaxLoss: real, recomputedMaxLoss: real, maxLossTolerance: real,
    extrinsicPct: real, extrinsicFloorPct: real,
    positionNotional: real, existingNotional: real, equity: real, capFraction: real,
    liquidityGradeA: bool, eventRiskNormal: bool)

  predicate PrepaidDefinedRisk(s: Structure, assignmentRisk: bool) {
    if assignmentRisk then false else s.LongOption? || s.DebitSpread?
  }

  /** The seven conditions a run to expiry must meet. */
  predicate RunEligible(f: Facts) {
    && PrepaidDefinedRisk(f.structure, f.assignmentRisk)
    && f.cashSettled
    && f.recomputedMaxLoss <= f.approvedMaxLoss + f.maxLossTolerance
    && f.extrinsicPct <= f.extrinsicFloorPct
    && f.existingNotional + f.positionNotional <= f.equity * f.capFraction
    && f.liquidityGradeA
    && f.eventRiskNormal
  }

  /** Of positions that meet every other condition, a long option or a debit spread may run to expiry,
      without assignment risk, and no other structure may. */
  lemma OnlyPrepaidMayRun(f: Facts)
    requires f.cashSettled && f.liquidityGradeA && f.eventRiskNormal && f.extrinsicPct <= f.extrinsicFloorPct
    requires f.recomputedMaxLoss - f.approvedMaxLoss <= f.maxLossTolerance
    requires f.positionNotional <= f.equity * f.capFraction - f.existingNotional
    ensures RunEligible(f) <==> !f.assignmentRisk && f.structure in {LongOption, DebitSpread}
  {
  }

  predicate MaxLossDiffers(f: Facts) { f.recomputedMaxLoss > f.approvedMaxLoss + f.maxLossTolerance }

  /** What each reason stands for. */
  predicate Fails(f: Facts, reason: RejectReason) {
    match reason
    case AssignmentRisk => f.assignmentRisk
    case StructureNotDefinedRisk => !f.assignmentRisk && !PrepaidDefinedRisk(f.structure, false)
    case NotCashSettled => !f.cashSettled
    case MaxLossMismatch => MaxLossDiffers(f)
    case ExtrinsicAboveFloor => f.extrinsicPct > f.extrinsicFloorPct
    case ExposureCap => f.existingNotional + f.positionNotional > f.equity * f.capFraction
    case LiquidityBelowA => !f.liquidityGradeA
    case EventRiskNotNormal => !f.eventRiskNormal
  }

  /** `if fails: reasons.append(reason)`. */
  function Append(reasons: seq<RejectReason>, fails: bool, reason: RejectReason): (r: seq<RejectReason>)
    ensures forall x :: x in r <==> x in reasons || (fails && x == reason)
  {
    if fails then reasons + [reason] else reasons
  }

  /** Every failed condition is reported and nothing else is; nothing is reported exactly when
      all seven conditions hold. */
  method EvaluateEligibility(f: Facts) returns (reasons: seq<RejectReason>)
    ensures forall x :: x in reasons <==> Fails(f, x)
    ensures reasons == [] <==> RunEligible(f)
  {
    if f.assignmentRisk {
      reasons := [AssignmentRisk];
    } else {
      reasons := Append([], !PrepaidDefinedRisk(f.structure, false), StructureNotDefinedRisk);
    }
    reasons := Append(reasons, !f.cashSettled, NotCashSettled);
    var lossDelta := f.recomputedMaxLoss - f.approvedMaxLoss;
    reasons := Append(reasons, lossDelta > f.maxLossTolerance, MaxLossMismatch);
    reasons := Append(reasons, f.extrinsicPct > f.extrinsicFloorPct, ExtrinsicAboveFloor);
    var combined, cap := f.existingNotional + f.positionNotional, f.equity * f.capFraction;
    reasons := Append(reasons, combined > cap, ExposureCap);
    reasons := Append(reasons, !f.liquidityGradeA, LiquidityBelowA);
    reasons := Append(reasons, !f.eventRiskNormal, EventRiskNotNormal);
    assert forall x :: x in reasons <==> Fails(f, x);
    NothingFails(f, reasons);
  }

  lemma NothingFails(f: Facts, reasons: seq<RejectReason>)
    requires forall x :: x in reasons <==> Fails(f, x)
    ensures reasons == [] <==> RunEligible(f)
  {
    if reasons != [] {
      assert Fails(f, reasons[0]);
    } else {
      assert !Fails(f, AssignmentRisk) && !Fails(f, StructureNotDefinedRisk) && !Fails(f, NotCashSettled);
      assert !Fails(f, MaxLossMismatch) && !Fails(f, ExtrinsicAboveFloor) && !Fails(f, ExposureCap);
      assert !Fails(f, LiquidityBelowA) && !Fails(f, EventRiskNotNormal);
    }
  }

  datatype PolicyRequest = PolicyRequest(kind: Kind, flattenDte: Option<nat>, runConditions: seq<Condition>) {
    predicate Valid() {
      && (kind.FlattenAtDte? ==> flattenDte.Some?)
      && (kind.RunToExpiry? ==> runConditions != [])
    }
  }

  datatype Decision = Decision(accepted: Policy, eligible: bool, reasons: seq<RejectReason>, hallucination: bool)

  datatype AcceptError = EligibilityRequired

  function OrDefault(dte: Option<nat>, default: nat): nat { dte.GetOr(default) }

  predicate GrantsRun(request: PolicyRequest, facts: Option<Facts>) {
    request.kind.RunToExpiry? && facts.Some? && RunEligible(facts.value)
  }

  /** The run-to-expiry kind is granted exactly to an eligible request for it. Everything refused
      falls back to a flatten that still has a day count, and remembers what was asked for. */
  method Accept(
    request: PolicyRequest, tradeId: string, facts: Option<Facts>, defaultDte: nat)
    returns (r: Result<Decision, AcceptError>)
    requires request.Valid()
    ensures r.Err? <==> request.kind.RunToExpiry? && facts.None?
    ensures r.Ok? ==> r.value.accepted.requested == request.kind && r.value.accepted.tradeId == tradeId
    ensures r.Ok? ==>
              (r.value.accepted.kind.RunToExpiry? <==> GrantsRun(request, facts))
    ensures r.Ok? ==> (r.value.eligible <==> r.value.accepted.kind == request.kind)
    ensures r.Ok? ==> (r.value.eligible <==> r.value.reasons == [])
    ensures r.Ok? && !r.value.accepted.kind.RunToExpiry? ==>
              r.value.accepted.flattenDte == Some(OrDefault(request.flattenDte, defaultDte))
    ensures r.Ok? && r.value.accepted.kind.RunToExpiry? ==>
              r.value.accepted.flattenDte.None? && r.value.accepted.runConditions != []
    ensures r.Ok? ==>
              r.value.accepted.runConditions
                == if r.value.accepted.kind.FlattenAtDte? then [] else request.runConditions
    ensures r.Ok? ==>
              (r.value.hallucination <==> request.kind.RunToExpiry? && MaxLossDiffers(facts.value))
  {
    if request.kind.FlattenAtDte? {
      return Ok(Decision(Policy(tradeId, FlattenAtDte, request.flattenDte, [], request.kind), true, [], false));
    }
    var flatten := OrDefault(request.flattenDte, defaultDte);
    if request.kind.FlattenEarlyIfFragile? {
      return Ok(Decision(
        Policy(tradeId, FlattenEarlyIfFragile, Some(flatten), request.runConditions, request.kind), true, [], false));
    }
    if facts.None? {
      return Err(EligibilityRequired);
    }
    var reasons := EvaluateEligibility(facts.value);
    if reasons == [] {
      return Ok(Decision(
        Policy(tradeId, RunToExpiry, None, request.runConditions, request.kind), true, [], false));
    }
    return Ok(Decision(
      Policy(tradeId, FlattenAtDte, Some(flatten), [], request.kind), false, reasons,
      MaxLossMismatch in reasons));
  }

  // ------------------------------------------------------------------- enforcement

  datatype Verdict = NoTerminalPolicy | NotRunToExpiry | Continue | RevertedToFlatten | ExitInsideDte

  datatype Poll = Poll(now: Snapshot, previous: Snapshot, daysToExpiry: Option<int>, missingBreaks: bool)

  predicate Breaks(c: Condition, p: Poll) {
    var status := EvaluateCondition(c, p.now, p.previous);
    status.Triggered? || (p.missingBreaks && status.MissingObservation?)
  }

  function BrokenIds(conditions: seq<Condition>, p: Poll): seq<string> {
    if conditions == [] then []
    else
      var rest, c := BrokenIds(conditions[..|conditions| - 1], p), conditions[|conditions| - 1];
      if Breaks(c, p) then rest + [c.id] else rest
  }

  ghost predicate SomeBreaks(conditions: seq<Condition>, p: Poll) {
    exists c :: c in conditions && Breaks(c, p)
  }

  lemma {:induction false} BrokenIdsMean(conditions: seq<Condition>, p: Poll)
    ensures BrokenIds(conditions, p) != [] <==> SomeBreaks(conditions, p)
    ensures forall id :: id in BrokenIds(conditions, p) <==> exists c :: c in conditions && Breaks(c, p) && c.id == id
  {
    if conditions != [] {
      var n := |conditions| - 1;
      BrokenIdsMean(conditions[..n], p);
      assert conditions == conditions[..n] + [conditions[n]];
    }
  }

  function ResolveFlattenDte(e: ExitPolicy, t: Policy): nat {
    if t.flattenDte.Some? then t.flattenDte.value else e.exitBefore.GetOr(DEFAULT_FLATTEN_DTE)
  }

  datatype DoorError = NoTerminal | OneWayDoor | AlreadyFrozen | TradeMismatch | WrongKind

  /** Replaces the kind with FLATTEN; an already flattened policy only syncs the exit days. */
  function Revert(e: ExitPolicy, flattenDte: nat): Result<ExitPolicy, DoorError> {
    match e.terminal
    case None => Err(NoTerminal)
    case Some(t) =>
      var flattened := if t.kind.FlattenAtDte? then t
                       else t.(kind := FlattenAtDte, flattenDte := Some(flattenDte), runConditions := []);
      Ok(e.(terminal := Some(flattened), exitBefore := Some(flattenDte)))
  }

  datatype Enforcement = Enforcement(verdict: Verdict, updated: Option<ExitPolicy>, broken: seq<string>)

  function Enforced(e: ExitPolicy, p: Poll): Enforcement {
    match e.terminal
    case None => Enforcement(NoTerminalPolicy, None, [])
    case Some(t) =>
      if !t.kind.RunToExpiry? then Enforcement(NotRunToExpiry, None, [])
      else
        var broken := BrokenIds(t.runConditions, p);
        if broken == [] then Enforcement(Continue, None, [])
        else
          var dte := ResolveFlattenDte(e, t);
          Enforcement(
            if p.daysToExpiry.Some? && p.daysToExpiry.value <= dte then ExitInsideDte else RevertedToFlatten,
            Some(Revert(e, dte).value), broken)
  }

  /** What an enforcement pass means. Only a running policy with a broken condition is changed: its
      terminal policy is flattened at the day count in force, which the exit days follow, and what was
      asked for stays on record. The verdict says whether that day count has already been reached, and
      the ids are those of the conditions that broke. */
  ghost predicate Enforces(e: ExitPolicy, p: Poll, r: Enforcement) {
    && (r.verdict.NoTerminalPolicy? <==> e.terminal.None?)
    && (r.verdict.NotRunToExpiry? <==> e.terminal.Some? && !Running(e))
    && (Reverts(r) <==> Running(e) && SomeBreaks(e.terminal.value.runConditions, p))
    && (r.updated.Some? <==> Reverts(r))
    && (forall id :: id in r.broken <==>
          Running(e) && exists c :: c in e.terminal.value.runConditions && Breaks(c, p) && c.id == id)
    && (Reverts(r) ==>
          var before, after, dte := e.terminal.value, r.updated.value, ResolveFlattenDte(e, e.terminal.value);
          && after.tradeId == e.tradeId && after.exitBefore == Some(dte)
          && after.terminal == Some(Policy(before.tradeId, FlattenAtDte, Some(dte), [], before.requested))
          && (r.verdict.ExitInsideDte? <==> p.daysToExpiry.Some? && p.daysToExpiry.value <= dte))
  }

  lemma EnforcedMeans(e: ExitPolicy, p: Poll)
    ensures Enforces(e, p, Enforced(e, p))
  {
    if Running(e) { BrokenIdsMean(e.terminal.value.runConditions, p); }
  }

  method Enforce(e: ExitPolicy, p: Poll) returns (r: Enforcement)
    ensures Enforces(e, p, r)
    ensures r == Enforced(e, p)
  {
    EnforcedMeans(e, p);
    if e.terminal.None? {
      return Enforcement(NoTerminalPolicy, None, []);
    }
    var t := e.terminal.value;
    if !t.kind.RunToExpiry? {
      return Enforcement(NotRunToExpiry, None, []);
    }
    var broken := [];
    for i := 0 to |t.runConditions|
      invariant broken == BrokenIds(t.runConditions[..i], p)
    {
      assert t.runConditions[..i + 1][..i] == t.runConditions[..i];
      var status := EvaluateCondition(t.runConditions[i], p.now, p.previous);
      if status.Triggered? || (p.missingBreaks && status.MissingObservation?) {
        broken := broken + [t.runConditions[i].id];
      }
    }
    assert t.runConditions[..|t.runConditions|] == t.runConditions;
    if broken == [] {
      return Enforcement(Continue, None, []);
    }
    var dte := ResolveFlattenDte(e, t);
    var reverted := Revert(e, dte).value;
    if p.daysToExpiry.Some? && p.daysToExpiry.value <= dte {
      return Enforcement(ExitInsideDte, Some(reverted), broken);
    }
    return Enforcement(RevertedToFlatten, Some(reverted), broken);
  }

  predicate Reverts(r: Enforcement) { r.verdict.RevertedToFlatten? || r.verdict.ExitInsideDte? }

  /** Attaching at entry: refused once any policy is frozen. */
  function Attach(e: ExitPolicy, t: Policy): Result<ExitPolicy, DoorError> {
    if e.tradeId != t.tradeId then Err(TradeMismatch)
    else if e.terminal.Some? then Err(AlreadyFrozen)
    else Ok(e.(terminal := Some(t)))
  }

  predicate LooksReverted(e: ExitPolicy) {
    e.terminal.Some? && e.terminal.value.requested.RunToExpiry? && e.terminal.value.kind.FlattenAtDte?
  }

  function Regrant(e: ExitPolicy, t: Policy): Result<ExitPolicy, DoorError> {
    if !t.kind.RunToExpiry? then Err(WrongKind)
    else if e.tradeId != t.tradeId then Err(TradeMismatch)
    else if LooksReverted(e) then Err(OneWayDoor)
    else if e.terminal.Some? then Err(AlreadyFrozen)
    else Ok(e.(terminal := Some(t)))
  }

  /** Who is turned away at the door, and why: a policy is put in place only for its own trade and where none
      is, taken back only from a run, and never a second time after a revert. */
  lemma TurnedAwayFor(e: ExitPolicy, t: Policy, dte: nat)
    ensures Revert(e, dte) == Err(NoTerminal) <==> e.terminal.None?
    ensures Revert(e, dte).Ok? <==> e.terminal.Some?
    ensures Attach(e, t) == Err(TradeMismatch) <==> e.tradeId != t.tradeId
    ensures Attach(e, t) == Err(AlreadyFrozen) <==> e.tradeId == t.tradeId && e.terminal.Some?
    ensures Attach(e, t).Ok? <==> e.tradeId == t.tradeId && e.terminal.None?
    ensures Regrant(e, t) == Err(WrongKind) <==> !t.kind.RunToExpiry?
    ensures Regrant(e, t) == Err(TradeMismatch) <==> t.kind.RunToExpiry? && e.tradeId != t.tradeId
    ensures t.kind.RunToExpiry? && e.tradeId == t.tradeId && e.terminal.Some? ==>
              (Regrant(e, t) == Err(OneWayDoor) <==>
                 e.terminal.value.requested.RunToExpiry? && e.terminal.value.kind.FlattenAtDte?)
              && (Regrant(e, t) == Err(AlreadyFrozen) <==>
                    !(e.terminal.value.requested.RunToExpiry? && e.terminal.value.kind.FlattenAtDte?))
    ensures Regrant(e, t).Ok? <==> t.kind.RunToExpiry? && e.tradeId == t.tradeId && e.terminal.None?
  {
  }

  // -------------------------------------------------------------- runs of the machine

  datatype Step = AttachStep(t: Policy) | EnforceStep(p: Poll) | RevertStep(dte: nat) | RegrantStep(t: Policy)

  /** A refused step raises and leaves the position's policy as it was. */
  function Keep(e: ExitPolicy, r: Result<ExitPolicy, DoorError>): ExitPolicy { if r.Ok? then r.value else e }

  function Take(e: ExitPolicy, s: Step): ExitPolicy {
    match s
    case AttachStep(t) => Keep(e, Attach(e, t))
    case EnforceStep(p) => (match Enforced(e, p).updated case Some(u) => u case None => e)
    case RevertStep(dte) => Keep(e, Revert(e, dte))
    case RegrantStep(t) => Keep(e, Regrant(e, t))
  }

  /** The policy after the first n steps. */
  function At(e: ExitPolicy, steps: seq<Step>, n: nat): ExitPolicy
    requires n <= |steps|
  {
    if n == 0 then e else Take(At(e, steps, n - 1), steps[n - 1])
  }

  /** How far through the door a policy is: nothing frozen, open, shut. */
  function Door(e: ExitPolicy): nat {
    match e.terminal
    case None => 0
    case Some(t) => if t.kind.FlattenAtDte? then 2 else 1
  }

  predicate Running(e: ExitPolicy) { e.terminal.Some? && e.terminal.value.kind.RunToExpiry? }

  predicate ReportsRevert(e: ExitPolicy, s: Step) { s.EnforceStep? && Reverts(Enforced(e, s.p)) }

  lemma StepFacts(e: ExitPolicy, s: Step)
    ensures Door(Take(e, s)) >= Door(e)
    ensures Door(e) >= 1 && Door(Take(e, s)) == 1 ==> Take(e, s).terminal == e.terminal
    ensures ReportsRevert(e, s) ==> Running(e) && Door(Take(e, s)) == 2
    ensures Running(e) && s.EnforceStep? ==>
              (ReportsRevert(e, s) <==> SomeBreaks(e.terminal.value.runConditions, s.p))
    ensures Running(e) && s.EnforceStep? && !ReportsRevert(e, s) ==> Take(e, s) == e
  {
    if Running(e) && s.EnforceStep? { BrokenIdsMean(e.terminal.value.runConditions, s.p); }
  }

  /** Whatever is attached, enforced, reverted or regranted, a position only ever holds a policy made for
      its own trade. */
  lemma {:induction false} PolicyOfItsOwnTrade(e: ExitPolicy, steps: seq<Step>, n: nat)
    requires n <= |steps| && (e.terminal.Some? ==> e.terminal.value.tradeId == e.tradeId)
    ensures At(e, steps, n).tradeId == e.tradeId
    ensures At(e, steps, n).terminal.Some? ==> At(e, steps, n).terminal.value.tradeId == e.tradeId
  {
    if n > 0 { PolicyOfItsOwnTrade(e, steps, n - 1); }
  }

  lemma {:induction false} DoorMonotone(e: ExitPolicy, steps: seq<Step>, i: nat, j: nat)
    requires i <= j <= |steps|
    ensures Door(At(e, steps, i)) <= Door(At(e, steps, j))
    ensures Door(At(e, steps, i)) >= 1 && Door(At(e, steps, j)) == 1 ==>
              At(e, steps, i).terminal == At(e, steps, j).terminal
    decreases j
  {
    if i < j {
      DoorMonotone(e, steps, i, j - 1);
      StepFacts(At(e, steps, j - 1), steps[j - 1]);
    }
  }

  /** One-way door over any run: once flattened a policy is flattened forever, a frozen policy is
      never dropped, and a run to expiry that has ended never resumes. */
  lemma DoorNeverReopens(e: ExitPolicy, steps: seq<Step>, i: nat, j: nat)
    requires i <= j <= |steps|
    ensures Door(At(e, steps, i)) == 2 ==> Door(At(e, steps, j)) == 2
    ensures At(e, steps, i).terminal.Some? ==> At(e, steps, j).terminal.Some?
    ensures At(e, steps, i).terminal.Some? && !Running(At(e, steps, i)) ==> !Running(At(e, steps, j))
    ensures Running(At(e, steps, i)) && Running(At(e, steps, j)) ==>
              At(e, steps, i).terminal == At(e, steps, j).terminal
  {
    DoorMonotone(e, steps, i, j);
  }

  lemma ReportShuts(e: ExitPolicy, steps: seq<Step>, i: nat)
    requires i < |steps| && ReportsRevert(At(e, steps, i), steps[i])
    ensures Door(At(e, steps, i + 1)) == 2
  {
    StepFacts(At(e, steps, i), steps[i]);
  }

  lemma ShutReportsNothing(e: ExitPolicy, s: Step)
    requires Door(e) == 2
    ensures !ReportsRevert(e, s)
  {
  }

  lemma StaysShut(e: ExitPolicy, steps: seq<Step>, i: nat, j: nat)
    requires i <= j <= |steps| && Door(At(e, steps, i)) == 2
    ensures Door(At(e, steps, j)) == 2
  {
    DoorMonotone(e, steps, i, j);
  }

  /** A revert is reported at most once in a run. */
  lemma AtMostOneRevertReported(e: ExitPolicy, steps: seq<Step>, i: nat, j: nat)
    requires i < j < |steps|
    requires ReportsRevert(At(e, steps, i), steps[i])
    ensures !ReportsRevert(At(e, steps, j), steps[j])
  {
    ReportShuts(e, steps, i);
    StaysShut(e, steps, i + 1, j);
    ShutReportsNothing(At(e, steps, j), steps[j]);
  }

  /** Among the enforcement passes of a running policy, exactly the first one with a triggered or
      missing run-condition reports the revert; earlier passes change nothing. */
  lemma FirstBreakReverts(e: ExitPolicy, polls: seq<Poll>, k: nat)
    requires Running(e) && k < |polls|
    requires forall i | 0 <= i < k :: !SomeBreaks(e.terminal.value.runConditions, polls[i])
    ensures var steps := Enforcements(polls);
            && At(e, steps, k) == e
            && (ReportsRevert(At(e, steps, k), steps[k]) <==>
                  SomeBreaks(e.terminal.value.runConditions, polls[k]))
            && (forall i | 0 <= i < k :: !ReportsRevert(At(e, steps, i), steps[i]))
    decreases k
  {
    var steps := Enforcements(polls);
    forall i | 0 <= i < k ensures !ReportsRevert(At(e, steps, i), steps[i]) {
      FirstBreakReverts(e, polls, i);
    }
    if k > 0 {
      FirstBreakReverts(e, polls, k - 1);
      StepFacts(e, steps[k - 1]);
    }
    StepFacts(e, steps[k]);
  }

  /** Where a run to expiry ends, on observations alone: past the level of a simple run condition, or
      on the step that takes the metric from one side of a crossing's level to the other. With that as
      the only condition the run goes on otherwise. */
  lemma RevertsPastTheLevel(e: ExitPolicy, c: Condition, p: Poll)
    requires Running(e) && c in e.terminal.value.runConditions && c.metric in p.now
    ensures c.comparator.LT? && p.now[c.metric] < c.threshold ==> Reverts(Enforced(e, p))
    ensures c.comparator.GT? && p.now[c.metric] > c.threshold ==> Reverts(Enforced(e, p))
    ensures e.terminal.value.runConditions == [c] && c.comparator.LT? ==>
              (Reverts(Enforced(e, p)) <==> p.now[c.metric] < c.threshold)
    ensures e.terminal.value.runConditions == [c] && c.comparator.GT? ==>
              (Reverts(Enforced(e, p)) <==> p.now[c.metric] > c.threshold)
    ensures e.terminal.value.runConditions == [c] && c.comparator.CrossesBelow? && c.metric in p.previous ==>
              (Reverts(Enforced(e, p)) <==> p.previous[c.metric] >= c.threshold > p.now[c.metric])
    ensures e.terminal.value.runConditions == [c] && c.comparator.CrossesAbove? && c.metric in p.previous ==>
              (Reverts(Enforced(e, p)) <==> p.previous[c.metric] <= c.threshold < p.now[c.metric])
  {
    EnforcedMeans(e, p);
    if Breaks(c, p) { assert SomeBreaks(e.terminal.value.runConditions, p); }
  }

  /** A run whose only condition was not observed reverts exactly where missing data breaks it. */
  lemma RevertsBlindOnlyIfTold(e: ExitPolicy, c: Condition, p: Poll)
    requires Running(e) && e.terminal.value.runConditions == [c]
    requires c.metric !in p.now || (NeedsPrior(c.comparator) && c.metric !in p.previous)
    ensures Reverts(Enforced(e, p)) <==> p.missingBreaks
  {
    EnforcedMeans(e, p);
    if p.missingBreaks { assert Breaks(c, p); }
  }

  /** The day count a reverted run flattens at: its policy's own, else the position's exit days, else one. */
  lemma FlattensAt(e: ExitPolicy, p: Poll)
    requires Reverts(Enforced(e, p))
    ensures var own, exit, after := e.terminal.value.flattenDte, e.exitBefore, Enforced(e, p).updated.value;
            && after.exitBefore == after.terminal.value.flattenDte
            && (own.Some? ==> after.exitBefore == own)
            && (own.None? && exit.Some? ==> after.exitBefore == exit)
            && (own.None? && exit.None? ==> after.exitBefore == Some(1))
  {
  }

  /** Polls that follow one metric without a gap: each starts from the observation the last one made. */
  ghost predicate Follows(polls: seq<Poll>, metric: string) {
    && (forall i | 0 <= i < |polls| :: metric in polls[i].now && metric in polls[i].previous)
    && (forall i | 0 < i < |polls| :: polls[i].previous[metric] == polls[i - 1].now[metric])
  }

  /** What those polls observed, from the first prior on. */
  function Observed(polls: seq<Poll>, metric: string): (trace: seq<real>)
    requires polls != [] && forall i | 0 <= i < |polls| :: metric in polls[i].now && metric in polls[i].previous
    ensures |trace| == |polls| + 1 && trace[0] == polls[0].previous[metric]
    ensures forall i | 0 <= i < |polls| :: trace[i + 1] == polls[i].now[metric]
  {
    [polls[0].previous[metric]] + seq(|polls|, i requires 0 <= i < |polls| => polls[i].now[metric])
  }

  lemma FiringBreaks(c: Condition, polls: seq<Poll>, k: nat)
    requires NeedsPrior(c.comparator) && Follows(polls, c.metric) && k < |polls|
    requires FiresAt(c.comparator, c.threshold, Observed(polls, c.metric), k)
    ensures Breaks(c, polls[k])
  {
    assert Observed(polls, c.metric)[k] == polls[k].previous[c.metric];
  }

  lemma FirstBreak(conditions: seq<Condition>, polls: seq<Poll>, j: nat) returns (k: nat)
    requires j < |polls| && SomeBreaks(conditions, polls[j])
    ensures k <= j && SomeBreaks(conditions, polls[k])
    ensures forall i | 0 <= i < k :: !SomeBreaks(conditions, polls[i])
  {
    k := 0;
    while !SomeBreaks(conditions, polls[k])
      invariant k <= j && forall i | 0 <= i < k :: !SomeBreaks(conditions, polls[i])
      decreases j - k
    {
      k := k + 1;
    }
  }

  /** A running policy cannot let a crossing pass: polls that follow a crossing condition's metric from
      one side of its threshold to the other revert the policy on the way, once, and for good. */
  lemma CrossingReverts(e: ExitPolicy, c: Condition, polls: seq<Poll>) returns (k: nat)
    requires Running(e) && c in e.terminal.value.runConditions && NeedsPrior(c.comparator)
    requires polls != [] && Follows(polls, c.metric)
    requires var start, end := polls[0].previous[c.metric], polls[|polls| - 1].now[c.metric];
             if c.comparator.CrossesBelow? then start >= c.threshold > end else start <= c.threshold < end
    ensures k < |polls| && ReportsRevert(At(e, Enforcements(polls), k), EnforceStep(polls[k]))
    ensures forall i | 0 <= i < |polls| && i != k ::
              !ReportsRevert(At(e, Enforcements(polls), i), EnforceStep(polls[i]))
    ensures Door(At(e, Enforcements(polls), |polls|)) == 2
  {
    var steps := Enforcements(polls);
    var j := CrossingMustFire(c.comparator, c.threshold, Observed(polls, c.metric));
    FiringBreaks(c, polls, j);
    k := FirstBreak(e.terminal.value.runConditions, polls, j);
    FirstBreakReverts(e, polls, k);
    assert ReportsRevert(At(e, steps, k), steps[k]);
    forall i | k < i < |polls| ensures !ReportsRevert(At(e, steps, i), EnforceStep(polls[i])) {
      AtMostOneRevertReported(e, steps, k, i);
    }
    ReportShuts(e, steps, k);
    StaysShut(e, steps, k + 1, |polls|);
  }

  function Enforcements(polls: seq<Poll>): (steps: seq<Step>)
    ensures |steps| == |polls| && forall i | 0 <= i < |polls| :: steps[i] == EnforceStep(polls[i])
  {
    seq(|polls|, i requires 0 <= i < |polls| => EnforceStep(polls[i]))
  }

  /** After a revert by enforcement the policy flattens at the agreed days and every regrant for
      this trade is refused at the door. */
  lemma RevertShutsTheDoor(e: ExitPolicy, p: Poll, t: Policy)
    requires Running(e) && e.terminal.value.requested.RunToExpiry? && Reverts(Enforced(e, p))
    requires t.kind.RunToExpiry? && t.tradeId == e.tradeId
    ensures var after := Enforced(e, p).updated.value;
            && after.exitBefore == after.terminal.value.flattenDte == Some(ResolveFlattenDte(e, e.terminal.value))
            && after.terminal.value.runConditions == []
            && Regrant(after, t) == Err(OneWayDoor)
            && (Enforced(e, p).verdict.ExitInsideDte? <==>
                  p.daysToExpiry.Some? && p.daysToExpiry.value <= after.exitBefore.value)
  {
  }
}
