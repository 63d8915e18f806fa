/** Idempotency payloads and sequential ids (src/trading/domain/ids.py). The payload joins seven
    components with a separator that none of them contains; a sequential id joins a prefix, a time
    stamp and a padded counter. Hashing and UTF-8 are not part of this model: the key is a function
    of the payload. */
module Ids {
  import opened Wrappers
  import opened Ordering

  // ------------------------------------------------------------------ decimal numerals

  function Digit(n: nat): char
    requires n < 10
  {
    ('0' as int + n) as char
  }

  /** Decimal rendering of a non-negative integer. */
  function Digits(n: nat): string {
    if n < 10 then [Digit(n)] else Digits(n / 10) + [Digit(n % 10)]
  }

  predicate IsNumeral(s: string) { forall i | 0 <= i < |s| :: '0' <= s[i] <= '9' }

  function DigitValue(c: char): int { c as int - '0' as int }

  function ValueOf(s: string): int {
    if s == [] then 0 else 10 * ValueOf(s[..|s| - 1]) + DigitValue(s[|s| - 1])
  }

  lemma {:induction false} DigitsAreNumeral(n: nat)
    ensures IsNumeral(Digits(n)) && Digits(n) != []
  {
    if n >= 10 { DigitsAreNumeral(n / 10); }
  }

  lemma {:induction false} DigitsValue(n: nat)
    ensures ValueOf(Digits(n)) == n
  {
    if n < 10 {
      assert [] + [Digit(n)] == [Digit(n)];
    } else {
      DigitsValue(n / 10);
    }
  }

  lemma DigitsRoundTrip(n: nat)
    ensures IsNumeral(Digits(n)) && Digits(n) != [] && ValueOf(Digits(n)) == n
  {
    DigitsAreNumeral(n);
    DigitsValue(n);
  }

  /** `str(n)`. */
  function Render(n: int): string { if n < 0 then "-" + Digits(-n) else Digits(n) }

  lemma RenderIsInjective(m: int, n: int)
    requires Render(m) == Render(n)
    ensures m == n
  {
    DigitsRoundTrip(if m < 0 then -m else m);
    DigitsRoundTrip(if n < 0 then -n else n);
    assert (m < 0 <==> Render(m)[0] == '-') && (n < 0 <==> Render(n)[0] == '-');
    if m < 0 {
      assert Render(m)[1..] == Digits(-m) && Render(n)[1..] == Digits(-n);
    }
  }

  // --------------------------------------------------------------------------- payload

  const SEPARATOR: char := 31 as char

  predicate Clean(s: string) { s != [] && SEPARATOR !in s }

  function Join(parts: seq<string>): string {
    if parts == [] then []
    else if |parts| == 1 then parts[0]
    else parts[0] + [SEPARATOR] + Join(parts[1..])
  }

  /** Cutting at every separator. */
  function Split(s: string): seq<string> {
    if s == [] then [[]]
    else
      var rest := Split(s[1..]);
      if s[0] == SEPARATOR then [[]] + rest else if rest == [] then [] else [[s[0]] + rest[0]] + rest[1..]
  }

  lemma {:induction false} SplitPart(part: string, tail: string)
    requires SEPARATOR !in part
    ensures Split(part + [SEPARATOR] + tail) == [part] + Split(tail)
    ensures Split(part) == [part]
  {
    var whole := part + [SEPARATOR] + tail;
    if part == [] {
      assert whole[1..] == tail;
    } else {
      SplitPart(part[1..], tail);
      assert whole[1..] == part[1..] + [SEPARATOR] + tail;
      assert [part[0]] + part[1..] == part;
    }
  }

  /** Splitting undoes joining, whatever the number of parts. */
  lemma {:induction false} SplitJoin(parts: seq<string>)
    requires parts != [] && forall i | 0 <= i < |parts| :: SEPARATOR !in parts[i]
    ensures Split(Join(parts)) == parts
  {
    if |parts| == 1 {
      SplitPart(parts[0], []);
      assert parts == [parts[0]];
    } else {
      SplitJoin(parts[1..]);
      SplitPart(parts[0], Join(parts[1..]));
      assert parts == [parts[0]] + parts[1..];
    }
  }

  datatype Order = Order(
    account: string, strategy: string, version: string, intent: string, leg: string, side: string, quantity: int)

  function Parts(o: Order): seq<string> {
    [o.account, o.strategy, o.version, o.intent, o.leg, o.side, Render(o.quantity)]
  }

  datatype IdError = ZeroQuantity | EmptyComponent | SeparatorInComponent

  function Validate(s: string): Result<string, IdError> {
    if s == [] then Err(EmptyComponent) else if SEPARATOR in s then Err(SeparatorInComponent) else Ok(s)
  }

  /** The bytes `derive_idempotency_key` hashes. */
  function Payload(o: Order): Result<string, IdError> {
    if o.quantity == 0 then Err(ZeroQuantity)
    else
      var account :- Validate(o.account);
      var strategy :- Validate(o.strategy);
      var version :- Validate(o.version);
      var intent :- Validate(o.intent);
      var leg :- Validate(o.leg);
      var side :- Validate(o.side);
      Ok(Join([account, strategy, version, intent, leg, side, Render(o.quantity)]))
  }

  predicate WellFormed(o: Order) {
    && o.quantity != 0
    && Clean(o.account) && Clean(o.strategy) && Clean(o.version)
    && Clean(o.intent) && Clean(o.leg) && Clean(o.side)
  }

  /** An order without a quantity is refused for that; any other for its first component that is empty or
      holds the separator. */
  lemma FirstBadComponent(o: Order, k: nat)
    requires k < 6 && !Clean(Parts(o)[k]) && forall i | 0 <= i < k :: Clean(Parts(o)[i])
    ensures Payload(o) ==
              if o.quantity == 0 then Err(ZeroQuantity)
              else if Parts(o)[k] == [] then Err(EmptyComponent) else Err(SeparatorInComponent)
  {
    assert k > 0 ==> Clean(Parts(o)[0]);
    assert k > 1 ==> Clean(Parts(o)[1]);
    assert k > 2 ==> Clean(Parts(o)[2]);
    assert k > 3 ==> Clean(Parts(o)[3]);
    assert k > 4 ==> Clean(Parts(o)[4]);
  }

  lemma RenderIsClean(n: int)
    ensures Clean(Render(n))
  {
    DigitsRoundTrip(if n < 0 then -n else n);
    var s := Digits(if n < 0 then -n else n);
    forall i | 0 <= i < |s| ensures s[i] != SEPARATOR {}
  }

  lemma PayloadSplits(o: Order)
    requires WellFormed(o)
    ensures Payload(o).Ok? && Split(Payload(o).value) == Parts(o)
  {
    RenderIsClean(o.quantity);
    SplitJoin(Parts(o));
  }

  /** One payload, one logical order: keys collide only for the same seven components, and exactly
      the well-formed orders have a key. */
  lemma PayloadIsInjective(a: Order, b: Order)
    ensures Payload(a).Ok? <==> WellFormed(a)
    ensures Payload(a).Ok? && Payload(b).Ok? ==> (Payload(a) == Payload(b) <==> a == b)
  {
    if Payload(a).Ok? && Payload(b).Ok? && Payload(a) == Payload(b) {
      PayloadSplits(a);
      PayloadSplits(b);
      var parts := Parts(a);
      assert parts == Parts(b);
      assert parts[0] == a.account == b.account && parts[1] == a.strategy == b.strategy;
      assert parts[2] == a.version == b.version && parts[3] == a.intent == b.intent;
      assert parts[4] == a.leg == b.leg && parts[5] == a.side == b.side;
      assert parts[6] == Render(a.quantity) == Render(b.quantity);
      RenderIsInjective(a.quantity, b.quantity);
    }
  }

  // --------------------------------------------------------------------- sequential ids

  function Zeros(n: nat): string { seq(n, _ => '0') }

  /** Left-padded with zeros to a width it may exceed. */
  function Padded(n: nat, width: nat): string {
    var digits := Digits(n);
    if |digits| >= width then digits else Zeros(width - |digits|) + digits
  }

  const WIDTH := 8

  function Stamp(instant: int): string {
    if instant < 0 then "-" + Padded(-instant, 15) else Padded(instant, 16)
  }

  function IdFor(prefix: string, instant: int, counter: nat): string {
    prefix + "-" + Stamp(instant) + "-" + Padded(counter, WIDTH)
  }

  class SequentialIdFactory {
    const instant: int
    var counter: nat

    constructor (instant: int, counter: nat)
      ensures this.instant == instant && this.counter == counter
    {
      this.instant, this.counter := instant, counter;
    }

    /** A refused prefix consumes no number. */
    method NewId(prefix: string) returns (id: Result<string, IdError>)
      modifies this
      ensures id.Ok? <==> Clean(prefix)
      ensures id.Ok? ==> counter == old(counter) + 1 && id.value == IdFor(prefix, instant, counter)
      ensures id.Err? ==> counter == old(counter)
      ensures id.Err? ==> id.error == if prefix == [] then EmptyComponent else SeparatorInComponent
    {
      var checked := Validate(prefix);
      if checked.Err? {
        return Err(checked.error);
      }
      counter := counter + 1;
      return Ok(prefix + "-" + Stamp(instant) + "-" + Padded(counter, WIDTH));
    }
  }

  lemma {:induction false} ZerosValue(n: nat, s: string)
    ensures ValueOf(Zeros(n) + s) == ValueOf(s)
    decreases |s|, n
  {
    if s == [] {
      assert Zeros(n) + s == Zeros(n);
      if n > 0 {
        ZerosValue(n - 1, []);
        assert Zeros(n) == Zeros(n - 1) + ['0'] && Zeros(n - 1) + [] == Zeros(n - 1);
      }
    } else {
      var front, last := s[..|s| - 1], s[|s| - 1];
      ZerosValue(n, front);
      assert Zeros(n) + s == (Zeros(n) + front) + [last] && s == front + [last];
    }
  }

  lemma PaddedFacts(n: nat, width: nat)
    ensures IsNumeral(Padded(n, width)) && ValueOf(Padded(n, width)) == n && Padded(n, width) != []
    ensures |Padded(n, width)| == if |Digits(n)| >= width then |Digits(n)| else width
  {
    DigitsRoundTrip(n);
    ZerosValue(if |Digits(n)| >= width then 0 else width - |Digits(n)|, Digits(n));
  }

  /** A stamp is the instant in digits, sixteen wide with its sign as long as it fits. */
  lemma StampOfAnInstant(instant: nat)
    ensures IsNumeral(Stamp(instant)) && ValueOf(Stamp(instant)) == instant
    ensures |Stamp(instant)| == if |Digits(instant)| >= 16 then |Digits(instant)| else 16
  {
    PaddedFacts(instant, 16);
  }

  lemma StampBeforeTheEpoch(instant: int)
    requires instant < 0
    ensures Stamp(instant)[0] == '-'
    ensures IsNumeral(Stamp(instant)[1..]) && ValueOf(Stamp(instant)[1..]) == -instant
    ensures |Stamp(instant)| == if |Digits(-instant)| >= 15 then |Digits(-instant)| + 1 else 16
  {
    PaddedFacts(-instant, 15);
    assert Stamp(instant)[1..] == Padded(-instant, 15);
  }

  lemma NoDash(s: string, t: string, u: string, v: string)
    requires s + "-" + t == u + "-" + v && IsNumeral(t) && IsNumeral(v)
    ensures |t| <= |v|
  {
    var whole := s + "-" + t;
    assert |u| == |whole| - |v| - 1 && whole[|u|] == '-';
  }

  /** Ids of one factory never repeat, under any prefixes. */
  lemma IdsNeverRepeat(p: string, q: string, instant: int, c: nat, d: nat)
    requires IdFor(p, instant, c) == IdFor(q, instant, d)
    ensures c == d && p == q
  {
    PaddedFacts(c, WIDTH);
    PaddedFacts(d, WIDTH);
    var t, v := Padded(c, WIDTH), Padded(d, WIDTH);
    var s, u := p + "-" + Stamp(instant), q + "-" + Stamp(instant);
    NoDash(s, t, u, v);
    NoDash(u, v, s, t);
    SplitEqual(s + "-", t, u + "-", v);
    SplitEqual(s, "-", u, "-");
    SplitEqual(p + "-", Stamp(instant), q + "-", Stamp(instant));
    SplitEqual(p, "-", q, "-");
  }

  // ------------------------------------------------------------------------------ order

  lemma {:induction false} CommonPrefix(common: string, s: string, t: string)
    ensures StringLess(common + s, common + t) <==> StringLess(s, t)
  {
    if common == [] {
      assert common + s == s && common + t == t;
    } else {
      CommonPrefix(common[1..], s, t);
      assert (common + s)[1..] == common[1..] + s && (common + t)[1..] == common[1..] + t;
    }
  }

  lemma {:induction false} EqualLengthAppend(s: string, t: string, u: string, v: string)
    requires |s| == |t| && StringLess(s, t)
    ensures StringLess(s + u, t + v)
  {
    if s != [] && s[0] == t[0] {
      EqualLengthAppend(s[1..], t[1..], u, v);
      assert (s + u)[1..] == s[1..] + u && (t + v)[1..] == t[1..] + v;
    }
  }

  /** Numerals of one length compare as their values. */
  lemma {:induction false} NumeralOrder(s: string, t: string)
    requires IsNumeral(s) && IsNumeral(t) && |s| == |t| && ValueOf(s) < ValueOf(t)
    ensures StringLess(s, t)
  {
    if s != [] {
      var n := |s| - 1;
      var front, front', last, last' := s[..n], t[..n], [s[n]], [t[n]];
      assert s == front + last && t == front' + last';
      NumeralValues(front, front');
      if ValueOf(front) < ValueOf(front') {
        NumeralOrder(front, front');
        EqualLengthAppend(front, front', last, last');
      } else {
        assert front == front';
        CommonPrefix(front, last, last');
      }
    }
  }

  lemma {:induction false} NumeralValues(s: string, t: string)
    requires IsNumeral(s) && IsNumeral(t) && |s| == |t|
    ensures ValueOf(s) == ValueOf(t) ==> s == t
  {
    if s != [] {
      var n := |s| - 1;
      NumeralValues(s[..n], t[..n]);
      assert s == s[..n] + [s[n]] && t == t[..n] + [t[n]];
    }
  }

  /** Ids of one prefix rise lexicographically as long as their counters are printed equally wide:
      always below one hundred million, where the width is fixed. */
  lemma IdsRise(prefix: string, instant: int, c: nat, d: nat)
    requires c < d && |Padded(c, WIDTH)| == |Padded(d, WIDTH)|
    ensures StringLess(IdFor(prefix, instant, c), IdFor(prefix, instant, d))
  {
    PaddedFacts(c, WIDTH);
    PaddedFacts(d, WIDTH);
    NumeralOrder(Padded(c, WIDTH), Padded(d, WIDTH));
    CommonPrefix(prefix + "-" + Stamp(instant) + "-", Padded(c, WIDTH), Padded(d, WIDTH));
  }

  function Power(k: nat): nat { if k == 0 then 1 else 10 * Power(k - 1) }

  lemma {:induction false} DigitCount(n: nat, k: nat)
    requires k >= 1
    ensures |Digits(n)| <= k <==> n < Power(k)
  {
    if k == 1 || n < 10 {
      PowerPositive(k - 1);
      if n >= 10 { DigitsRoundTrip(n / 10); }
    } else {
      DigitCount(n / 10, k - 1);
    }
  }

  lemma {:induction false} PowerPositive(k: nat)
    ensures Power(k) >= 1
  {
    if k > 0 { PowerPositive(k - 1); }
  }

  lemma FixedWidthBelowLimit(c: nat)
    ensures |Padded(c, WIDTH)| == WIDTH <==> c < 100_000_000
  {
    PaddedFacts(c, WIDTH);
    DigitCount(c, WIDTH);
    assert Power(4) == 10_000;
    assert Power(8) == 100_000_000;
  }

  lemma {:induction false} NewDigit(c: nat)
    requires |Digits(c + 1)| != |Digits(c)|
    ensures Digits(c)[0] == '9' && Digits(c + 1)[0] == '1'
  {
    if c < 10 {
      assert c == 9;
      assert Digits(10) == Digits(1) + [Digit(0)];
    } else {
      DigitsRoundTrip(c / 10);
      DigitsRoundTrip((c + 1) / 10);
      assert (c + 1) / 10 == c / 10 + 1;
      NewDigit(c / 10);
    }
  }

  lemma {:induction false} Grows(c: nat)
    ensures |Digits(c)| <= |Digits(c + 1)| <= |Digits(c)| + 1
  {
    if c >= 10 {
      assert (c + 1) / 10 == c / 10 || (c + 1) / 10 == c / 10 + 1;
      Grows(c / 10);
    }
  }

  lemma WidthOf(c: nat)
    ensures |Padded(c, WIDTH)| == |Padded(c + 1, WIDTH)| <==> c + 1 < 100_000_000 || |Digits(c + 1)| == |Digits(c)|
  {
    DigitCount(c + 1, WIDTH);
    assert Power(4) == 10_000;
    assert Power(8) == 100_000_000;
    Grows(c);
  }

  lemma WiderSortsFirst(c: nat)
    requires |Padded(c, WIDTH)| != |Padded(c + 1, WIDTH)|
    ensures !StringLess(Padded(c, WIDTH), Padded(c + 1, WIDTH))
  {
    Grows(c);
    NewDigit(c);
  }

  /** Consecutive ids rise exactly when the counter does not gain a digit beyond its width: the first
      id that does sorts before its predecessor. */
  lemma NextIdRisesWhen(prefix: string, instant: int, c: nat)
    ensures StringLess(IdFor(prefix, instant, c), IdFor(prefix, instant, c + 1))
      <==> c + 1 < 100_000_000 || |Digits(c + 1)| == |Digits(c)|
  {
    WidthOf(c);
    CommonPrefix(prefix + "-" + Stamp(instant) + "-", Padded(c, WIDTH), Padded(c + 1, WIDTH));
    if |Padded(c, WIDTH)| == |Padded(c + 1, WIDTH)| {
      IdsRise(prefix, instant, c, c + 1);
    } else {
      WiderSortsFirst(c);
    }
  }

  /** The hundred-millionth id sorts before the one issued just before it. */
  lemma OrderBreaksAtTheLimit(prefix: string, instant: int)
    ensures !StringLess(IdFor(prefix, instant, 99_999_999), IdFor(prefix, instant, 100_000_000))
  {
    NextIdRisesWhen(prefix, instant, 99_999_999);
    DigitCount(99_999_999, 8);
    DigitCount(100_000_000, 8);
    assert Power(4) == 10_000;
    assert Power(8) == 100_000_000;
  }
}
