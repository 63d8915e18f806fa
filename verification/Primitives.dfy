/** Prices on a tick grid and whole lots (src/trading/domain/primitives.py). A valid price is a
    whole number of ticks; snapping moves a value onto the grid in the named direction, and distances
    in ticks are exact. Quantities convert to lots and back exactly where the lot size divides
    them. */
module Primitives {
  import opened Wrappers
  import opened Decimals

  datatype UnitError = NegativePrice | TickMismatch | PartialLot

  /** `n` ticks of size `tick`. */
  function Units(n: int, tick: real): real { n as real * tick }

  lemma UnitsAdd(m: int, n: int, tick: real)
    ensures Units(m + n, tick) == Units(m, tick) + Units(n, tick)
    ensures Units(m - n, tick) == Units(m, tick) - Units(n, tick)
  {
    assert (m + n) as real == m as real + n as real;
    assert (m - n) as real == m as real - n as real;
    Distribute(m as real, n as real, tick);
    Distribute(m as real, -(n as real), tick);
  }

  lemma UnitsMonotone(m: int, n: int, tick: real)
    requires tick > 0.0
    ensures m <= n <==> Units(m, tick) <= Units(n, tick)
  {
    UnitsAdd(n, m, tick);
    if m < n { assert (n - m) as real * tick > 0.0; }
    if n < m { UnitsAdd(m, n, tick); assert (m - n) as real * tick > 0.0; }
  }

  lemma UnitsDivide(n: int, tick: real)
    requires tick > 0.0
    ensures Units(n, tick) / tick == n as real
  {
  }

  /** `value % tick == 0`. */
  predicate OnGrid(value: real, tick: real)
    requires tick > 0.0
  {
    Units(Round(value / tick, TowardZero), tick) == value
  }

  datatype Price = Price(value: real, tick: real) {
    predicate Valid() { tick > 0.0 && value >= 0.0 && OnGrid(value, tick) }
  }

  /** The position of a valid price on its grid. */
  function TickCount(p: Price): (n: nat)
    requires p.Valid()
    ensures p.value == Units(n, p.tick)
  {
    var n := Round(p.value / p.tick, TowardZero);
    UnitsMonotone(0, n, p.tick);
    n
  }

  lemma UnitsOnGrid(n: nat, tick: real)
    requires tick > 0.0
    ensures Price(Units(n, tick), tick).Valid()
    ensures TickCount(Price(Units(n, tick), tick)) == n
  {
    UnitsDivide(n, tick);
    UnitsMonotone(0, n, tick);
  }

  function Snap(raw: real, tick: real, mode: Rounding): Result<Price, UnitError>
    requires tick > 0.0
  {
    if raw < 0.0 then Err(NegativePrice)
    else Ok(Price(Units(Round(raw / tick, mode), tick), tick))
  }

  lemma QuotientBounds(raw: real, n: int, tick: real)
    requires tick > 0.0
    ensures n as real <= raw / tick <==> Units(n, tick) <= raw
    ensures n as real < raw / tick <==> Units(n, tick) < raw
  {
    DivideTimes(raw, tick);
    var q := raw / tick;
    assert (q - n as real) * tick == raw - Units(n, tick) by { Distribute(q, n as real, tick); }
  }

  /** Snapping fails exactly on a negative value; otherwise it lands on the grid, at a price
      the constructor accepts. */
  lemma SnapLandsOnGrid(raw: real, tick: real, mode: Rounding)
    requires tick > 0.0
    ensures Snap(raw, tick, mode).Ok? <==> raw >= 0.0
    ensures raw >= 0.0 ==> Snap(raw, tick, mode).value.Valid() && Snap(raw, tick, mode).value.tick == tick
  {
    if raw >= 0.0 {
      var n := Round(raw / tick, mode);
      QuotientBounds(raw, 0, tick);
      RoundMonotone(0.0, raw / tick, mode);
      UnitsOnGrid(n, tick);
    }
  }

  /** A price already on the grid is not moved by any mode. */
  lemma SnapIdempotent(p: Price, mode: Rounding)
    requires p.Valid()
    ensures Snap(p.value, p.tick, mode) == Ok(p)
  {
    var n := TickCount(p);
    UnitsDivide(n, p.tick);
  }

  lemma SnapMonotone(a: real, b: real, tick: real, mode: Rounding)
    requires tick > 0.0 && 0.0 <= a <= b
    ensures Snap(a, tick, mode).value.value <= Snap(b, tick, mode).value.value
  {
    DivideMonotone(a, b, tick);
    RoundMonotone(a / tick, b / tick, mode);
    UnitsMonotone(Round(a / tick, mode), Round(b / tick, mode), tick);
  }

  /** A signed fraction of a tick, and the money it moves a price by. */
  lemma FractionOfATick(gap: real, tick: real, moved: real)
    requires tick > 0.0 && moved == gap * tick
    ensures gap >= 0.0 <==> moved >= 0.0
    ensures gap <= 0.0 <==> moved <= 0.0
    ensures gap < 1.0 <==> moved < tick
    ensures gap > -1.0 <==> moved > -tick
    ensures 2.0 * gap <= 1.0 <==> 2.0 * moved <= tick
    ensures 2.0 * gap >= -1.0 <==> 2.0 * moved >= -tick
  {
    FractionAgainst(gap, 0.0, tick, moved, 0.0);
    FractionAgainst(gap, 1.0, tick, moved, tick);
    FractionAgainst(gap, -1.0, tick, moved, -tick);
    FractionAgainst(gap, 0.5, tick, moved, 0.5 * tick);
    FractionAgainst(gap, -0.5, tick, moved, -0.5 * tick);
  }

  lemma FractionAgainst(gap: real, k: real, tick: real, moved: real, bound: real)
    requires tick > 0.0 && moved == gap * tick && bound == k * tick
    ensures gap >= k <==> moved >= bound
    ensures gap <= k <==> moved <= bound
  {
    Distribute(gap, k, tick);
  }

  /** Less than one tick away, on the named side; half-even stays within half a tick. */
  lemma SnapWithinATick(raw: real, tick: real, mode: Rounding)
    requires tick > 0.0 && raw >= 0.0
    ensures var p := Snap(raw, tick, mode).value.value;
            match mode
            case Floor => p <= raw < p + tick
            case TowardZero => p <= raw < p + tick
            case Ceiling => p - tick < raw <= p
            case HalfEven => -tick <= 2.0 * (raw - p) <= tick
  {
    var q, n := raw / tick, Round(raw / tick, mode);
    DivideTimes(raw, tick);
    RoundSpec(q, n, mode);
    QuotientBounds(raw, 0, tick);
    Distribute(q, n as real, tick);
    FractionOfATick(q - n as real, tick, raw - Units(n, tick));
  }

  /** Floor is the highest grid price not above the raw value, ceiling the lowest not below it. */
  lemma SnapIsTightest(raw: real, tick: real, n: nat)
    requires tick > 0.0 && raw >= 0.0
    ensures Units(n, tick) <= raw <==> Units(n, tick) <= Snap(raw, tick, Floor).value.value
    ensures Units(n, tick) >= raw <==> Units(n, tick) >= Snap(raw, tick, Ceiling).value.value
  {
    QuotientBounds(raw, n, tick);
    UnitsMonotone(n, Round(raw / tick, Floor), tick);
    UnitsMonotone(Round(raw / tick, Ceiling), n, tick);
    RoundSpec(raw / tick, Round(raw / tick, Floor), Floor);
    RoundSpec(raw / tick, Round(raw / tick, Ceiling), Ceiling);
  }

  /** `int((self.value - other.value) / tick)`: Python's `int` truncates. */
  function TicksFrom(a: Price, b: Price): Result<int, UnitError>
    requires a.Valid() && b.Valid()
  {
    if a.tick != b.tick then Err(TickMismatch) else Ok(Round((a.value - b.value) / a.tick, TowardZero))
  }

  /** The truncation never bites: tick distance is exact, so it adds up along a path. */
  lemma TicksFromIsExact(a: Price, b: Price, c: Price)
    requires a.Valid() && b.Valid() && c.Valid() && a.tick == b.tick == c.tick
    ensures TicksFrom(a, b) == Ok(TickCount(a) - TickCount(b))
    ensures a.value == b.value + Units(TicksFrom(a, b).value, a.tick)
    ensures TicksFrom(a, c).value == TicksFrom(a, b).value + TicksFrom(b, c).value
  {
    ExactDistance(a, b);
    ExactDistance(b, c);
    ExactDistance(a, c);
  }

  lemma ExactDistance(a: Price, b: Price)
    requires a.Valid() && b.Valid() && a.tick == b.tick
    ensures TicksFrom(a, b) == Ok(TickCount(a) - TickCount(b))
    ensures a.value == b.value + Units(TicksFrom(a, b).value, a.tick)
  {
    var m: int, n: int := TickCount(a), TickCount(b);
    UnitsAdd(m, n, a.tick);
    UnitsDivide(m - n, a.tick);
  }

  // ----------------------------------------------------------------------- lots

  function ToLots(contracts: int, perLot: int): Result<int, UnitError>
    requires perLot > 0
  {
    if contracts % perLot != 0 then Err(PartialLot) else Ok(contracts / perLot)
  }

  function ToQuantity(lots: int, perLot: int): int { lots * perLot }

  /** Lots and contracts are two spellings of one count, long or short. */
  lemma LotsRoundTrip(contracts: int, lots: int, perLot: int)
    requires perLot > 0
    ensures ToLots(contracts, perLot) == Ok(lots) <==> ToQuantity(lots, perLot) == contracts
  {
    if contracts == lots * perLot {
      var whole, rest := contracts / perLot, contracts % perLot;
      assert contracts == whole * perLot + rest;
      SameMultiple(lots - whole, perLot, rest);
    }
  }

  lemma SameMultiple(count: int, perLot: int, rest: int)
    requires 0 <= rest < perLot && count * perLot == rest
    ensures count == 0 && rest == 0
  {
  }

}
