/** What the binders' inequality checks mean in money: profit and loss per unit of every bound
    structure at every settlement price. */
module Payoff {
  import opened Wrappers
  import opened Contracts
  import opened Search
  import D = Decimals

  /** Value at expiry of one option struck at `strike`. */
  function Intrinsic(side: OptionType, strike: real, settlement: real): real {
    D.Max(0.0, if side.Call? then settlement - strike else strike - settlement)
  }

  /** The profits range over exactly [low, high] in the sense that both ends are reached. */
  ghost predicate Range(pnl: real -> real, low: real, high: real) {
    && (forall s: real :: low <= pnl(s) <= high)
    && (exists s: real :: pnl(s) == low)
    && (exists s: real :: pnl(s) == high)
  }

  /** A position that can both lose and gain, and gains at best `ratio` times what it risks. */
  ghost predicate RewardsRisk(pnl: real -> real, ratio: real) {
    exists low: real, high: real :: Range(pnl, low, high) && low < 0.0 < high && high >= ratio * -low
  }

  /** A position that can both gain and lose, and risks at most `cap` times its best gain. */
  ghost predicate CapsRisk(pnl: real -> real, cap: real) {
    exists low: real, high: real :: Range(pnl, low, high) && low < 0.0 < high && -low <= cap * high
  }

  /** A position has one range. */
  lemma RangeIsUnique(pnl: real -> real, a: real, b: real, c: real, d: real)
    requires Range(pnl, a, b) && Range(pnl, c, d)
    ensures a == c && b == d
  {
    var atA: real :| pnl(atA) == a;
    var atB: real :| pnl(atB) == b;
    var atC: real :| pnl(atC) == c;
    var atD: real :| pnl(atD) == d;
    assert c <= pnl(atA) && pnl(atB) <= d && a <= pnl(atC) && pnl(atD) <= b;
  }

  /** Profit of a vertical spread opened for `paid` points (negative when money came in). */
  function VerticalPnl(side: OptionType, longStrike: real, shortStrike: real, paid: real): real -> real {
    (settlement: real) =>
      Intrinsic(side, longStrike, settlement) - Intrinsic(side, shortStrike, settlement) - paid
  }

  /** The long leg is the more valuable one: the spread is worth between nothing and its width. */
  lemma DebitRange(side: OptionType, longStrike: real, shortStrike: real, paid: real)
    requires if side.Call? then longStrike < shortStrike else longStrike > shortStrike
    ensures Range(VerticalPnl(side, longStrike, shortStrike, paid),
                  -paid, D.Abs(longStrike - shortStrike) - paid)
  {
    var pnl := VerticalPnl(side, longStrike, shortStrike, paid);
    assert pnl(longStrike) == -paid;
    assert pnl(shortStrike) == D.Abs(longStrike - shortStrike) - paid;
  }

  /** The short leg is the more valuable one. */
  lemma CreditRange(side: OptionType, longStrike: real, shortStrike: real, received: real)
    requires if side.Call? then shortStrike < longStrike else shortStrike > longStrike
    ensures Range(VerticalPnl(side, longStrike, shortStrike, -received),
                  received - D.Abs(longStrike - shortStrike), received)
  {
    var pnl := VerticalPnl(side, longStrike, shortStrike, -received);
    assert pnl(longStrike) == received - D.Abs(longStrike - shortStrike);
    assert pnl(shortStrike) == received;
  }

  function DebitPnl(long: Snapshot, short: Snapshot, side: OptionType, policy: Policy): real -> real
    requires Priced(long, short)
  {
    VerticalPnl(side, Strike(long), Strike(short), Debit(long, short, policy))
  }

  function CreditPnl(long: Snapshot, short: Snapshot, side: OptionType, policy: Policy): real -> real
    requires Priced(long, short)
  {
    VerticalPnl(side, Strike(long), Strike(short), -NetCredit(long, short, policy))
  }

  lemma RatioAtLeast(a: real, b: real, ratio: real)
    requires b > 0.0
    ensures a / b >= ratio <==> a >= ratio * b
    ensures a / b <= ratio <==> a <= ratio * b
  {
    D.DivideTimes(a, b);
    if a / b >= ratio { assert a / b * b >= ratio * b; }
    if a / b < ratio { assert a / b * b < ratio * b; }
    if a / b <= ratio { assert a / b * b <= ratio * b; }
    if a / b > ratio { assert a / b * b > ratio * b; }
  }

  lemma DebitTestMeans(debit: real, width: real, ratio: real)
    ensures DebitTest(debit, width, ratio) <==>
              -debit < 0.0 < width - debit && width - debit >= ratio * debit
  {
    if debit > 0.0 { RatioAtLeast(width - debit, debit, ratio); }
  }

  lemma CreditTestMeans(credit: real, width: real, cap: real)
    ensures CreditTest(credit, width, cap) <==>
              credit - width < 0.0 < credit && width - credit <= cap * credit
  {
    if credit > 0.0 { RatioAtLeast(width - credit, credit, cap); }
  }

  lemma RewardIffDebitTest(pnl: real -> real, debit: real, width: real, ratio: real)
    requires Range(pnl, -debit, width - debit)
    ensures RewardsRisk(pnl, ratio) <==> DebitTest(debit, width, ratio)
  {
    DebitTestMeans(debit, width, ratio);
    if RewardsRisk(pnl, ratio) {
      var low, high :| Range(pnl, low, high) && low < 0.0 < high && high >= ratio * -low;
      RangeIsUnique(pnl, low, high, -debit, width - debit);
    }
  }

  lemma CapIffCreditTest(pnl: real -> real, credit: real, width: real, cap: real)
    requires Range(pnl, credit - width, credit)
    ensures CapsRisk(pnl, cap) <==> CreditTest(credit, width, cap)
  {
    CreditTestMeans(credit, width, cap);
    if CapsRisk(pnl, cap) {
      var low, high :| Range(pnl, low, high) && low < 0.0 < high && -low <= cap * high;
      RangeIsUnique(pnl, low, high, credit - width, credit);
    }
  }

  lemma DebitPnlRange(long: Snapshot, short: Snapshot, side: OptionType, policy: Policy)
    requires Vertical(long, short) && Priced(long, short)
    requires if side.Call? then Strike(long) < Strike(short) else Strike(long) > Strike(short)
    ensures Range(DebitPnl(long, short, side, policy),
                  -Debit(long, short, policy), Width(long, short) - Debit(long, short, policy))
  {
    DebitRange(side, Strike(long), Strike(short), Debit(long, short, policy));
  }

  /** The check on a debit pair says exactly what its profit does over all settlements: it lies
      within [-debit, width - debit], reaches both ends, can lose and gain, and pays at best the
      required multiple of what it risks. */
  lemma DebitCheckMeansPayoff(long: Snapshot, short: Snapshot, side: OptionType, policy: Policy)
    requires Vertical(long, short) && Priced(long, short)
    requires if side.Call? then Strike(long) < Strike(short) else Strike(long) > Strike(short)
    ensures ValidDebitPair(long, short, side, policy) <==>
              RewardsRisk(DebitPnl(long, short, side, policy), policy.minRewardRisk)
  {
    var debit, width, pnl := Debit(long, short, policy), Width(long, short), DebitPnl(long, short, side, policy);
    DebitPnlRange(long, short, side, policy);
    RewardIffDebitTest(pnl, debit, width, policy.minRewardRisk);
  }

  lemma CreditPnlRange(long: Snapshot, short: Snapshot, side: OptionType, policy: Policy)
    requires Vertical(long, short) && Priced(long, short)
    requires if side.Call? then Strike(short) < Strike(long) else Strike(short) > Strike(long)
    ensures Range(CreditPnl(long, short, side, policy),
                  NetCredit(long, short, policy) - Width(long, short), NetCredit(long, short, policy))
  {
    CreditRange(side, Strike(long), Strike(short), NetCredit(long, short, policy));
  }

  /** The same for a credit pair: profit within [credit - width, credit] and the worst loss at
      most the cap times the credit kept. */
  lemma CreditCheckMeansPayoff(
    long: Snapshot, short: Snapshot, side: OptionType, policy: Policy, cap: Option<real>)
    requires Vertical(long, short) && Priced(long, short)
    requires if side.Call? then Strike(short) < Strike(long) else Strike(short) > Strike(long)
    ensures ValidCreditPair(long, short, side, policy, cap) <==>
              CapsRisk(CreditPnl(long, short, side, policy), RiskCap(cap))
  {
    var credit, width, pnl := NetCredit(long, short, policy), Width(long, short), CreditPnl(long, short, side, policy);
    CreditPnlRange(long, short, side, policy);
    CapIffCreditTest(pnl, credit, width, RiskCap(cap));
  }

  /** Every pair a vertical binder may choose is protected at every settlement. */
  lemma AdmissibleVerticalsAreBounded(s: Structure, desk: Desk, legs: seq<Snapshot>)
    requires s.DebitSpread? || s.CreditSpread?
    requires Admissible(s, desk, legs)
    ensures s.DebitSpread? ==> RewardsRisk(DebitPnl(legs[0], legs[1], s.side, desk.policy), desk.policy.minRewardRisk)
    ensures s.CreditSpread? ==> CapsRisk(CreditPnl(legs[0], legs[1], s.side, desk.policy), RiskCap(s.maxRiskRatio))
  {
    if s.DebitSpread? {
      DebitCheckMeansPayoff(legs[0], legs[1], s.side, desk.policy);
    } else {
      CreditCheckMeansPayoff(legs[0], legs[1], s.side, desk.policy, s.maxRiskRatio);
    }
  }

  // -------------------------------------------------------------- four-leg wings

  /** What the holder of a short condor or iron butterfly owes at one settlement. */
  function Owed(legs: seq<Snapshot>): real -> real
    requires |legs| == 4
  {
    var lp, sp, sc, lc := Strike(legs[0]), Strike(legs[1]), Strike(legs[2]), Strike(legs[3]);
    (s: real) =>
      Intrinsic(Put, sp, s) - Intrinsic(Put, lp, s) + Intrinsic(Call, sc, s) - Intrinsic(Call, lc, s)
  }

  /** The obligation is never negative and never more than the wider wing, which it reaches. */
  lemma WingsNeverOweMoreThanTheWiderWing(s: Structure, desk: Desk, legs: seq<Snapshot>)
    requires (s.IronCondor? || s.IronButterfly?) && Admissible(s, desk, legs)
    ensures Range(Owed(legs), 0.0, D.Max(Width(legs[1], legs[0]), Width(legs[3], legs[2])))
  {
    var owed := Owed(legs);
    assert owed(Strike(legs[1])) == 0.0;
    assert owed(Strike(legs[0])) == Width(legs[1], legs[0]);
    assert owed(Strike(legs[3])) == Width(legs[3], legs[2]);
  }

  /** A long butterfly is worth between nothing and its half-width, and its best at the middle. */
  function ButterflyValue(side: OptionType, legs: seq<Snapshot>): real -> real
    requires |legs| == 3
  {
    (s: real) =>
      Intrinsic(side, Strike(legs[0]), s) - 2.0 * Intrinsic(side, Strike(legs[1]), s)
      + Intrinsic(side, Strike(legs[2]), s)
  }

  lemma ButterflyValueBounded(s: Structure, desk: Desk, legs: seq<Snapshot>)
    requires s.LongButterfly? && Admissible(s, desk, legs)
    ensures Range(ButterflyValue(s.side, legs), 0.0, Strike(legs[1]) - Strike(legs[0]))
    ensures ButterflyValue(s.side, legs)(Strike(legs[1])) == Strike(legs[1]) - Strike(legs[0])
  {
    var value := ButterflyValue(s.side, legs);
    assert value(Strike(legs[0])) == 0.0;
    assert value(Strike(legs[1])) == Strike(legs[1]) - Strike(legs[0]);
  }
}
