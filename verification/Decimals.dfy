/** Rounding of exact decimals (src/trading/domain/primitives.py and every `quantize`).
    A decimal is a real; the rounding modes are written out. Rounding is monotone and leaves
    integers alone; quantizing to a number of units inherits both and stays within half a
    unit. */
module Decimals {

  datatype Rounding = HalfEven | Floor | Ceiling | TowardZero

  function Abs(x: real): (r: real)
    ensures r >= 0.0 && r >= x && r >= -x
  {
    if x < 0.0 then -x else x
  }

  function Min(x: real, y: real): real { if y < x then y else x }

  function Max(x: real, y: real): real { if y > x then y else x }

  function Sum(xs: seq<real>): real {
    if xs == [] then 0.0 else Sum(xs[..|xs| - 1]) + xs[|xs| - 1]
  }

  function Clamp(x: real, low: real, high: real): real { Min(Max(x, low), high) }

  /** `Decimal.quantize(Decimal(1), rounding=mode)`. */
  function Round(x: real, mode: Rounding): int
  {
    var below := x.Floor;
    match mode
    case Floor => below
    case Ceiling => if below as real == x then below else below + 1
    case TowardZero => if x >= 0.0 || below as real == x then below else below + 1
    case HalfEven =>
      var rest := x - below as real;
      if rest < 0.5 then below
      else if rest > 0.5 then below + 1
      else if below % 2 == 0 then below
      else below + 1
  }

  /** Each mode determines its integer: the neighbour in the named direction, or the nearest
      one with ties going to the even neighbour. */
  ghost predicate Rounds(x: real, n: int, mode: Rounding) {
    match mode
    case Floor => n as real <= x < n as real + 1.0
    case Ceiling => n as real - 1.0 < x <= n as real
    case TowardZero =>
      if x >= 0.0 then 0.0 <= n as real <= x < n as real + 1.0
      else n as real - 1.0 < x <= n as real <= 0.0
    case HalfEven =>
      && -0.5 <= x - n as real <= 0.5
      && (x - n as real == 0.5 || n as real - x == 0.5 ==> n % 2 == 0)
  }

  /** `Round` is the one integer its mode allows. */
  lemma RoundSpec(x: real, n: int, mode: Rounding)
    ensures Rounds(x, n, mode) <==> n == Round(x, mode)
  {
    assert x.Floor as real <= x < x.Floor as real + 1.0;
  }

  lemma RoundMonotone(x: real, y: real, mode: Rounding)
    requires x <= y
    ensures Round(x, mode) <= Round(y, mode)
  {
    assert x.Floor <= y.Floor;
  }

  /** Every mode is idempotent: an integer stays where it is. */
  lemma RoundInteger(n: int, mode: Rounding)
    ensures Round(n as real, mode) == n
  {
    assert (n as real).Floor == n;
  }

  lemma DivideTimes(a: real, s: real)
    requires s != 0.0
    ensures a / s * s == a
  {
  }

  lemma DivideMonotone(a: real, b: real, s: real)
    requires s > 0.0 && a <= b
    ensures a / s <= b / s
  {
    DivideTimes(a, s);
    DivideTimes(b, s);
  }

  lemma Distribute(a: real, b: real, s: real)
    ensures (a - b) * s == a * s - b * s
  {
  }

  function Ratio(a: int, b: int): real
    requires b > 0
  {
    a as real / b as real
  }

  /** `quantize(Decimal(1)/scale)` with the default half-even mode. */
  function Quantize(x: real, scale: int): (q: real)
    requires scale > 0
  {
    Ratio(Round(x * scale as real, HalfEven), scale)
  }

  lemma QuantizeIs(x: real, n: int, scale: int)
    requires scale > 0 && Rounds(x * scale as real, n, HalfEven)
    ensures Quantize(x, scale) == Ratio(n, scale)
    ensures Quantize(x, scale) * scale as real == n as real
  {
    var y := x * scale as real;
    RoundSpec(y, n, HalfEven);
    assert Round(y, HalfEven) == n;
    assert Round(x * scale as real, HalfEven) == n;
    assert Quantize(x, scale) == Ratio(Round(x * scale as real, HalfEven), scale);
    DivideTimes(n as real, scale as real);
  }

  /** Quantizing moves a value by at most half a grid step. */
  lemma QuantizeError(x: real, scale: int)
    requires scale > 0
    ensures -1.0 <= (Quantize(x, scale) - x) * (2 * scale) as real <= 1.0
  {
    var s, q := scale as real, Quantize(x, scale);
    var n := Round(x * s, HalfEven);
    RoundSpec(x * s, n, HalfEven);
    QuantizeIs(x, n, scale);
    Distribute(q, x, s);
    assert (q - x) * (2 * scale) as real == 2.0 * ((q - x) * s);
  }

  lemma QuantizeMonotone(x: real, y: real, scale: int)
    requires scale > 0 && x <= y
    ensures Quantize(x, scale) <= Quantize(y, scale)
  {
    assert x * scale as real <= y * scale as real;
    RoundMonotone(x * scale as real, y * scale as real, HalfEven);
    DivideMonotone(Round(x * scale as real, HalfEven) as real,
                   Round(y * scale as real, HalfEven) as real, scale as real);
  }

  /** A value already on the grid is not moved. */
  lemma QuantizeExact(x: real, n: int, scale: int)
    requires scale > 0 && x * scale as real == n as real
    ensures Quantize(x, scale) == x
  {
    var s := scale as real;
    RoundInteger(n, HalfEven);
    RoundSpec(n as real, n, HalfEven);
    QuantizeIs(x, n, scale);
    DivideMonotone(x * s, x * s, s);
    assert x * s / s == x;
  }

  lemma QuantizeInteger(x: real, n: int, scale: int)
    requires scale > 0 && x == n as real
    ensures Quantize(x, scale) == x
  {
    assert x * scale as real == (n * scale) as real;
    QuantizeExact(x, n * scale, scale);
  }

  lemma QuantizeBounds(x: real, low: int, high: int, scale: int)
    requires scale > 0 && low as real <= x <= high as real
    ensures low as real <= Quantize(x, scale) <= high as real
  {
    QuantizeMonotone(low as real, x, scale);
    QuantizeMonotone(x, high as real, scale);
    QuantizeInteger(low as real, low, scale);
    QuantizeInteger(high as real, high, scale);
  }
}
