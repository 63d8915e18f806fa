/** Drawdown, losing streak and profit factor of a P&L series
    (src/trading/analytics/scorecard.py:280-347, src/trading/analytics/breakout_evaluation.py:306-336). */
module Equity {
  import opened Wrappers
  import opened Decimals

  lemma SumLast(pnls: seq<real>, i: nat)
    requires i < |pnls|
    ensures Sum(pnls[..i + 1]) == Sum(pnls[..i]) + pnls[i]
  {
    assert pnls[..i + 1][..i] == pnls[..i];
  }

  lemma {:induction false} SumAppend(a: seq<real>, b: seq<real>)
    ensures Sum(a + b) == Sum(a) + Sum(b)
  {
    if b == [] {
      assert a + b == a;
    } else {
      var n := |b| - 1;
      assert (a + b)[..|a + b| - 1] == a + b[..n];
      SumAppend(a, b[..n]);
    }
  }

  /** Account equity after the first `i` trades; it starts at zero. */
  function EquityAt(pnls: seq<real>, i: nat): real
    requires i <= |pnls|
  {
    Sum(pnls[..i])
  }

  ghost predicate IsPeak(pnls: seq<real>, peak: real) {
    && (forall i | 0 <= i <= |pnls| :: EquityAt(pnls, i) <= peak)
    && (exists i :: 0 <= i <= |pnls| && EquityAt(pnls, i) == peak)
  }

  ghost predicate IsTrough(pnls: seq<real>, trough: real) {
    && (forall i | 0 <= i <= |pnls| :: EquityAt(pnls, i) >= trough)
    && (exists i :: 0 <= i <= |pnls| && EquityAt(pnls, i) == trough)
  }

  ghost predicate Falls(pnls: seq<real>, i: nat, j: nat, depth: real)
    requires i <= j <= |pnls|
  {
    EquityAt(pnls, i) - EquityAt(pnls, j) == depth
  }

  /** The quadratic definition: the deepest fall between any two moments, in order. */
  ghost predicate IsMaxDrawdown(pnls: seq<real>, depth: real) {
    && (forall i, j | 0 <= i <= j <= |pnls| :: EquityAt(pnls, i) - EquityAt(pnls, j) <= depth)
    && (exists i, j :: 0 <= i <= j <= |pnls| && Falls(pnls, i, j, depth))
  }

  lemma MaxDrawdownIsUnique(pnls: seq<real>, a: real, b: real)
    requires IsMaxDrawdown(pnls, a) && IsMaxDrawdown(pnls, b)
    ensures a == b >= 0.0
  {
    var i, j :| 0 <= i <= j <= |pnls| && Falls(pnls, i, j, a);
    var k, m :| 0 <= k <= m <= |pnls| && Falls(pnls, k, m, b);
    assert EquityAt(pnls, 0) - EquityAt(pnls, 0) <= a;
  }

  lemma PrefixEquity(pnls: seq<real>, n: nat, i: nat)
    requires i <= n <= |pnls|
    ensures EquityAt(pnls[..n], i) == EquityAt(pnls, i)
  {
    assert pnls[..n][..i] == pnls[..i];
  }

  lemma PeakStep(pnls: seq<real>, n: nat, peak: real)
    requires n < |pnls| && IsPeak(pnls[..n], peak)
    ensures IsPeak(pnls[..n + 1], Max(peak, EquityAt(pnls, n + 1)))
  {
    var more, next := pnls[..n + 1], Max(peak, EquityAt(pnls, n + 1));
    forall i | 0 <= i <= n + 1 ensures EquityAt(more, i) <= next {
      PrefixEquity(pnls, n + 1, i);
      if i <= n { PrefixEquity(pnls, n, i); assert EquityAt(pnls[..n], i) <= peak; }
    }
    var k :| 0 <= k <= n && EquityAt(pnls[..n], k) == peak;
    PrefixEquity(pnls, n, k);
    PrefixEquity(pnls, n + 1, k);
    PrefixEquity(pnls, n + 1, n + 1);
    assert EquityAt(more, if next == peak then k else n + 1) == next;
  }

  lemma DrawdownStep(pnls: seq<real>, n: nat, peak: real, depth: real)
    requires n < |pnls| && IsPeak(pnls[..n + 1], peak) && IsMaxDrawdown(pnls[..n], depth)
    ensures IsMaxDrawdown(pnls[..n + 1], Max(depth, peak - EquityAt(pnls, n + 1)))
  {
    var more, next := pnls[..n + 1], Max(depth, peak - EquityAt(pnls, n + 1));
    forall i, j | 0 <= i <= j <= n + 1 ensures EquityAt(more, i) - EquityAt(more, j) <= next {
      PrefixEquity(pnls, n + 1, i);
      PrefixEquity(pnls, n + 1, j);
      if j <= n { PrefixEquity(pnls, n, i); PrefixEquity(pnls, n, j); }
      assert EquityAt(more, i) <= peak;
    }
    if next == depth {
      var i, j :| 0 <= i <= j <= n && Falls(pnls[..n], i, j, depth);
      PrefixEquity(pnls, n, i);
      PrefixEquity(pnls, n, j);
      PrefixEquity(pnls, n + 1, i);
      PrefixEquity(pnls, n + 1, j);
      assert Falls(more, i, j, next);
    } else {
      var k :| 0 <= k <= n + 1 && EquityAt(more, k) == peak;
      PrefixEquity(pnls, n + 1, n + 1);
      assert Falls(more, k, n + 1, next);
    }
  }

  /** What the one-pass loop knows after `n` trades. */
  ghost predicate Tracked(pnls: seq<real>, n: nat, equity: real, peak: real, depth: real)
    requires n <= |pnls|
  {
    equity == EquityAt(pnls, n) && IsPeak(pnls[..n], peak) && IsMaxDrawdown(pnls[..n], depth)
  }

  lemma TrackedAtStart(pnls: seq<real>)
    ensures Tracked(pnls, 0, 0.0, 0.0, 0.0)
  {
    assert EquityAt(pnls[..0], 0) == 0.0 && Falls(pnls[..0], 0, 0, 0.0);
  }

  lemma TrackedStep(pnls: seq<real>, n: nat, equity: real, peak: real, depth: real)
    requires n < |pnls| && Tracked(pnls, n, equity, peak, depth)
    ensures var next, top := equity + pnls[n], Max(peak, equity + pnls[n]);
            Tracked(pnls, n + 1, next, top, Max(depth, top - next))
  {
    SumLast(pnls, n);
    PeakStep(pnls, n, peak);
    DrawdownStep(pnls, n, Max(peak, equity + pnls[n]), depth);
  }

  lemma TrackedAtEnd(pnls: seq<real>, equity: real, peak: real, depth: real)
    requires Tracked(pnls, |pnls|, equity, peak, depth)
    ensures IsMaxDrawdown(pnls, depth)
  {
    assert pnls[..|pnls|] == pnls;
  }

  /** `_max_drawdown`: one pass, equal to the quadratic definition. */
  method MaxDrawdown(pnls: seq<real>) returns (maxDrawdown: real)
    ensures IsMaxDrawdown(pnls, maxDrawdown)
  {
    var peak, equity := 0.0, 0.0;
    maxDrawdown := 0.0;
    TrackedAtStart(pnls);
    for n := 0 to |pnls|
      invariant Tracked(pnls, n, equity, peak, maxDrawdown)
    {
      TrackedStep(pnls, n, equity, peak, maxDrawdown);
      equity := equity + pnls[n];
      peak := Max(peak, equity);
      maxDrawdown := Max(maxDrawdown, peak - equity);
    }
    TrackedAtEnd(pnls, equity, peak, maxDrawdown);
  }

  lemma EquityInFirst(a: seq<real>, b: seq<real>, i: nat)
    requires i <= |a|
    ensures EquityAt(a + b, i) == EquityAt(a, i)
  {
    assert (a + b)[..i] == a[..i];
  }

  lemma EquityInSecond(a: seq<real>, b: seq<real>, i: nat)
    requires |a| <= i <= |a| + |b|
    ensures EquityAt(a + b, i) == Sum(a) + EquityAt(b, i - |a|)
  {
    assert (a + b)[..i] == a + b[..i - |a|];
    SumAppend(a, b[..i - |a|]);
  }

  lemma EquityOfAppend(a: seq<real>, b: seq<real>, i: nat)
    requires i <= |a| + |b|
    ensures i <= |a| ==> EquityAt(a + b, i) == EquityAt(a, i)
    ensures i >= |a| ==> EquityAt(a + b, i) == Sum(a) + EquityAt(b, i - |a|)
  {
    if i <= |a| { EquityInFirst(a, b, i); }
    if i >= |a| { EquityInSecond(a, b, i); }
  }

  /** The fall that starts at the first period's peak and ends at the second one's trough. */
  function CrossFall(a: seq<real>, peak: real, trough: real): real { peak - (Sum(a) + trough) }

  lemma FallOfAppend(
    a: seq<real>, b: seq<real>, da: real, db: real, peak: real, trough: real, i: nat, j: nat)
    requires IsMaxDrawdown(a, da) && IsMaxDrawdown(b, db) && IsPeak(a, peak) && IsTrough(b, trough)
    requires i <= j <= |a| + |b|
    ensures EquityAt(a + b, i) - EquityAt(a + b, j) <= Max(Max(da, db), CrossFall(a, peak, trough))
  {
    EquityOfAppend(a, b, i);
    EquityOfAppend(a, b, j);
    if j <= |a| {
      assert EquityAt(a, i) - EquityAt(a, j) <= da;
    } else if i > |a| {
      assert EquityAt(b, i - |a|) - EquityAt(b, j - |a|) <= db;
    } else {
      assert EquityAt(a, i) <= peak && EquityAt(b, j - |a|) >= trough;
    }
  }

  lemma FallsInFirst(a: seq<real>, b: seq<real>, i: nat, j: nat, depth: real)
    requires i <= j <= |a| && Falls(a, i, j, depth)
    ensures Falls(a + b, i, j, depth)
  {
    EquityOfAppend(a, b, i);
    EquityOfAppend(a, b, j);
  }

  lemma FallsInSecond(a: seq<real>, b: seq<real>, i: nat, j: nat, depth: real)
    requires i <= j <= |b| && Falls(b, i, j, depth)
    ensures Falls(a + b, i + |a|, j + |a|, depth)
  {
    EquityOfAppend(a, b, i + |a|);
    EquityOfAppend(a, b, j + |a|);
  }

  lemma FallsAcross(a: seq<real>, b: seq<real>, i: nat, j: nat, peak: real, trough: real)
    requires i <= |a| && j <= |b| && EquityAt(a, i) == peak && EquityAt(b, j) == trough
    ensures Falls(a + b, i, j + |a|, CrossFall(a, peak, trough))
  {
    EquityOfAppend(a, b, i);
    EquityOfAppend(a, b, j + |a|);
  }

  /** The drawdown of one period followed by another is the deepest of the two drawdowns and the
      fall across the boundary. */
  lemma DrawdownOfAppend(
    a: seq<real>, b: seq<real>, da: real, db: real, peak: real, trough: real)
    requires IsMaxDrawdown(a, da) && IsMaxDrawdown(b, db) && IsPeak(a, peak) && IsTrough(b, trough)
    ensures IsMaxDrawdown(a + b, Max(Max(da, db), CrossFall(a, peak, trough)))
  {
    var all, depth := a + b, Max(Max(da, db), CrossFall(a, peak, trough));
    forall i, j | 0 <= i <= j <= |all| ensures EquityAt(all, i) - EquityAt(all, j) <= depth {
      FallOfAppend(a, b, da, db, peak, trough, i, j);
    }
    if depth == da {
      var i, j :| 0 <= i <= j <= |a| && Falls(a, i, j, da);
      FallsInFirst(a, b, i, j, da);
    } else if depth == db {
      var i, j :| 0 <= i <= j <= |b| && Falls(b, i, j, db);
      FallsInSecond(a, b, i, j, db);
    } else {
      var i :| 0 <= i <= |a| && EquityAt(a, i) == peak;
      var j :| 0 <= j <= |b| && EquityAt(b, j) == trough;
      FallsAcross(a, b, i, j, peak, trough);
    }
  }

  // ---------------------------------------------------------------------- streaks

  ghost predicate LosingRun(pnls: seq<real>, i: nat, j: nat)
    requires i <= j <= |pnls|
  {
    forall k | i <= k < j :: pnls[k] < 0.0
  }

  /** The longest stretch of consecutive losing trades. */
  ghost predicate IsLongestLosingRun(pnls: seq<real>, length: nat) {
    && (forall i, j | 0 <= i <= j <= |pnls| && LosingRun(pnls, i, j) :: j - i <= length)
    && (exists i, j :: 0 <= i <= j <= |pnls| && LosingRun(pnls, i, j) && j - i == length)
  }

  /** `_max_consecutive_losses`. */
  method MaxConsecutiveLosses(pnls: seq<real>) returns (best: nat)
    ensures IsLongestLosingRun(pnls, best)
  {
    var streak: nat := 0;
    best := 0;
    ghost var from: nat, to: nat := 0, 0;
    for n := 0 to |pnls|
      invariant streak <= n && LosingRun(pnls, n - streak, n)
      invariant streak < n ==> pnls[n - streak - 1] >= 0.0
      invariant forall i, j | 0 <= i <= j <= n && LosingRun(pnls, i, j) :: j - i <= best
      invariant from <= to <= n && LosingRun(pnls, from, to) && to - from == best
    {
      ghost var before := best;
      if pnls[n] < 0.0 {
        streak := streak + 1;
        if streak > best { from, to := n + 1 - streak, n + 1; }
        best := if streak > best then streak else best;
      } else {
        streak := 0;
      }
      forall i, j | 0 <= i <= j <= n + 1 && LosingRun(pnls, i, j) ensures j - i <= best {
        if j == n + 1 && i < j { assert streak < n + 1 ==> pnls[n - streak] >= 0.0; }
      }
    }
  }

  // ---------------------------------------------------------- profit and its share

  function Gains(pnls: seq<real>): real {
    if pnls == [] then 0.0 else Gains(pnls[..|pnls| - 1]) + Max(0.0, pnls[|pnls| - 1])
  }

  function Losses(pnls: seq<real>): real {
    if pnls == [] then 0.0 else Losses(pnls[..|pnls| - 1]) + Max(0.0, -pnls[|pnls| - 1])
  }

  function ProfitFactor(gains: real, losses: real): real
    requires losses >= 0.0
  {
    if losses > 0.0 then Quantize(gains / losses, 100) else if gains > 0.0 then 99.99 else 0.0
  }

  /** The factor is gains over losses to the nearest hundredth; without losses a sentinel stands for any gain,
      and nothing gained is zero. */
  lemma ProfitFactorMeans(gains: real, losses: real)
    requires gains >= 0.0 && losses >= 0.0
    ensures losses > 0.0 ==> -losses <= (ProfitFactor(gains, losses) * losses - gains) * 200.0 <= losses
    ensures losses == 0.0 ==> ProfitFactor(gains, losses) == if gains == 0.0 then 0.0 else 99.99
  {
    if losses > 0.0 {
      var q, x := ProfitFactor(gains, losses), gains / losses;
      assert x * losses == gains by { DivideTimes(gains, losses); }
      QuantizeError(x, 100);
      ScaledError(q, x, losses, gains);
    }
  }

  lemma ScaledError(q: real, x: real, s: real, a: real)
    requires s > 0.0 && x * s == a && -1.0 <= (q - x) * 200.0 <= 1.0
    ensures -s <= (q * s - a) * 200.0 <= s
  {
    var error := (q - x) * 200.0;
    assert error * s <= 1.0 * s && -1.0 * s <= error * s;
    assert (q * s - a) * 200.0 == error * s;
  }

  lemma {:induction false} GainsMinusLosses(pnls: seq<real>)
    ensures Gains(pnls) - Losses(pnls) == Sum(pnls)
    ensures Gains(pnls) >= 0.0 && Losses(pnls) >= 0.0
  {
    if pnls != [] { GainsMinusLosses(pnls[..|pnls| - 1]); }
  }

  /** What that loop knows after `n` trades. */
  ghost predicate Scanned(pnls: seq<real>, n: nat, equity: real, peak: real, depth: real, gains: real, losses: real)
    requires n <= |pnls|
  {
    Tracked(pnls, n, equity, peak, depth) && gains == Gains(pnls[..n]) && losses == Losses(pnls[..n])
  }

  lemma ScannedStep(pnls: seq<real>, n: nat, equity: real, peak: real, depth: real, gains: real, losses: real)
    requires n < |pnls| && Scanned(pnls, n, equity, peak, depth, gains, losses)
    ensures var next, top := equity + pnls[n], Max(peak, equity + pnls[n]);
            Scanned(pnls, n + 1, next, top, Max(depth, top - next),
                    gains + Max(0.0, pnls[n]), losses + Max(0.0, -pnls[n]))
  {
    assert pnls[..n + 1][..n] == pnls[..n];
    TrackedStep(pnls, n, equity, peak, depth);
  }

  /** The one loop of `_compute_drawdown_and_pf`. */
  method ScanPnls(pnls: seq<real>) returns (maxDrawdown: real, gains: real, losses: real)
    ensures IsMaxDrawdown(pnls, maxDrawdown)
    ensures gains == Gains(pnls) && losses == Losses(pnls)
  {
    TrackedAtStart(pnls);
    var equity, peak := 0.0, 0.0;
    maxDrawdown, gains, losses := 0.0, 0.0, 0.0;
    for n := 0 to |pnls|
      invariant Scanned(pnls, n, equity, peak, maxDrawdown, gains, losses)
    {
      ScannedStep(pnls, n, equity, peak, maxDrawdown, gains, losses);
      equity := equity + pnls[n];
      peak := Max(peak, equity);
      maxDrawdown := Max(maxDrawdown, peak - equity);
      if pnls[n] > 0.0 {
        gains := gains + pnls[n];
      } else if pnls[n] < 0.0 {
        losses := losses + Abs(pnls[n]);
      }
    }
    TrackedAtEnd(pnls, equity, peak, maxDrawdown);
    assert pnls[..|pnls|] == pnls;
  }

  /** The same drawdown, cent-rounded, and a profit factor whose two parts differ by the total. */
  ghost predicate Measures(pnls: seq<real>, drawdown: real, factor: real) {
    && (exists exact :: IsMaxDrawdown(pnls, exact) && drawdown == Quantize(exact, 100))
    && Losses(pnls) >= 0.0 && Gains(pnls) - Losses(pnls) == Sum(pnls)
    && factor == ProfitFactor(Gains(pnls), Losses(pnls))
  }

  /** `_compute_drawdown_and_pf`. An empty series reads as no drawdown and no factor. */
  method DrawdownAndProfitFactor(pnls: seq<real>) returns (drawdown: real, factor: real)
    ensures Measures(pnls, drawdown, factor)
  {
    var maxDrawdown, gains, losses := ScanPnls(pnls);
    GainsMinusLosses(pnls);
    drawdown, factor := Quantize(maxDrawdown, 100), ProfitFactor(gains, losses);
    if pnls == [] {
      drawdown, factor := 0.0, 0.0;
    }
  }

  function AbsSum(pnls: seq<real>): real {
    if pnls == [] then 0.0 else AbsSum(pnls[..|pnls| - 1]) + Abs(pnls[|pnls| - 1])
  }

  ghost predicate IsLargest(pnls: seq<real>, peak: real) {
    && (forall i | 0 <= i < |pnls| :: Abs(pnls[i]) <= peak)
    && (exists i :: 0 <= i < |pnls| && Abs(pnls[i]) == peak)
  }

  /** The largest trade's share of all movement, if there were trades. */
  ghost predicate IsConcentration(pnls: seq<real>, share: Option<real>) {
    && (share.None? <==> pnls == [])
    && (share.Some? && AbsSum(pnls) == 0.0 ==> share.value == 0.0)
    && (share.Some? && AbsSum(pnls) != 0.0 ==>
          exists peak :: IsLargest(pnls, peak) && share.value == Quantize(peak / AbsSum(pnls), 10000))
  }

  /** `_concentration`. */
  method Concentration(pnls: seq<real>) returns (share: Option<real>)
    ensures IsConcentration(pnls, share)
  {
    if pnls == [] {
      return None;
    }
    var total, peak := 0.0, Abs(pnls[0]);
    for n := 0 to |pnls|
      invariant total == AbsSum(pnls[..n])
      invariant forall i | 0 <= i < n :: Abs(pnls[i]) <= peak
      invariant exists i :: 0 <= i < |pnls| && Abs(pnls[i]) == peak
    {
      assert pnls[..n + 1][..n] == pnls[..n];
      total := total + Abs(pnls[n]);
      peak := Max(peak, Abs(pnls[n]));
    }
    assert pnls[..|pnls|] == pnls;
    if total == 0.0 {
      return Some(0.0);
    }
    assert IsLargest(pnls, peak);
    share := Some(Quantize(peak / total, 10000));
  }

  lemma {:induction false} AbsSumBounds(pnls: seq<real>, peak: real)
    requires forall i | 0 <= i < |pnls| :: Abs(pnls[i]) <= peak
    ensures 0.0 <= AbsSum(pnls) <= |pnls| as real * peak
    ensures forall i | 0 <= i < |pnls| :: Abs(pnls[i]) <= AbsSum(pnls)
  {
    if pnls != [] { AbsSumBounds(pnls[..|pnls| - 1], peak); }
  }

  lemma Proportion(part: real, whole: real)
    requires 0.0 <= part <= whole && whole > 0.0
    ensures 0.0 <= part / whole <= 1.0
  {
    DivideMonotone(part, whole, whole);
    DivideMonotone(0.0, part, whole);
  }

  /** The share is a proportion, and never below an equal split: with `n` trades the largest one
      carries at least one n-th of the movement. */
  lemma ConcentrationBounds(pnls: seq<real>, peak: real)
    requires IsLargest(pnls, peak) && AbsSum(pnls) != 0.0
    ensures peak <= AbsSum(pnls) <= |pnls| as real * peak
    ensures 0.0 <= Quantize(peak / AbsSum(pnls), 10000) <= 1.0
  {
    AbsSumBounds(pnls, peak);
    Proportion(peak, AbsSum(pnls));
    QuantizeBounds(peak / AbsSum(pnls), 0, 1, 10000);
  }
}
