/** The Gregorian calendar of Python's `date`, and the monthly-contract rule on it
    (src/trading/identification/calendar.py:256-422). Dates compare as their day numbers, months and
    years add up to them, and adding a week crosses month and year ends. Years below 1 or above
    9999 are not excluded. */
module Calendar {
  datatype Date = Date(year: nat, month: nat, day: nat) {
    predicate Valid() { year >= 1 && 1 <= month <= 12 && 1 <= day <= DaysInMonth(year, month) }
  }

  predicate Leap(year: nat) { year % 4 == 0 && (year % 100 != 0 || year % 400 == 0) }

  function DaysInMonth(year: nat, month: nat): nat {
    if month == 2 then (if Leap(year) then 29 else 28)
    else if month == 4 || month == 6 || month == 9 || month == 11 then 30
    else 31
  }

  function DaysBeforeYear(year: nat): nat
    requires year >= 1
  {
    var y: nat := year - 1;
    y * 365 + y / 4 - y / 100 + y / 400
  }

  function DaysBeforeMonth(year: nat, month: nat): nat {
    if month <= 1 then 0 else DaysBeforeMonth(year, month - 1) + DaysInMonth(year, month - 1)
  }

  /** `date.toordinal`: day 1 is 1 January of year 1, a Monday. */
  function Ordinal(d: Date): int
    requires d.Valid()
  {
    DaysBeforeYear(d.year) + DaysBeforeMonth(d.year, d.month) + d.day
  }

  /** `date.weekday`: Monday is 0. */
  function Weekday(ordinal: int): int { (ordinal + 6) % 7 }

  const THURSDAY := 3

  lemma MonthsOfAYear(year: nat)
    ensures DaysBeforeMonth(year, 12) == 306 + DaysInMonth(year, 2)
  {
    var feb := DaysInMonth(year, 2);
    assert DaysBeforeMonth(year, 2) == 31 && DaysBeforeMonth(year, 3) == 31 + feb;
    assert DaysBeforeMonth(year, 4) == 62 + feb && DaysBeforeMonth(year, 5) == 92 + feb;
    assert DaysBeforeMonth(year, 6) == 123 + feb && DaysBeforeMonth(year, 7) == 153 + feb;
    assert DaysBeforeMonth(year, 8) == 184 + feb && DaysBeforeMonth(year, 9) == 215 + feb;
    assert DaysBeforeMonth(year, 10) == 245 + feb && DaysBeforeMonth(year, 11) == 276 + feb;
  }

  lemma YearLength(year: nat)
    requires year >= 1
    ensures DaysBeforeYear(year + 1) == DaysBeforeYear(year) + DaysBeforeMonth(year, 12) + 31
    ensures DaysBeforeMonth(year, 12) + 31 == if Leap(year) then 366 else 365
  {
    MonthsOfAYear(year);
    LeapDays(year);
  }

  lemma Fourths(year: nat)
    requires year >= 1
    ensures year / 4 == (year - 1) / 4 + if year % 4 == 0 then 1 else 0
  {
  }

  lemma Hundredths(year: nat)
    requires year >= 1
    ensures year / 100 == (year - 1) / 100 + if year % 100 == 0 then 1 else 0
  {
  }

  lemma FourHundredths(year: nat)
    requires year >= 1
    ensures year / 400 == (year - 1) / 400 + if year % 400 == 0 then 1 else 0
  {
  }

  lemma Nested(year: nat)
    ensures year % 400 == 0 ==> year % 100 == 0
    ensures year % 100 == 0 ==> year % 4 == 0
  {
    assert year == 400 * (year / 400) + year % 400;
    assert year == 100 * (year / 100) + year % 100;
    Multiple(year, 100, 4 * (year / 400), year % 400);
    Multiple(year, 4, 25 * (year / 100), year % 100);
  }

  lemma Multiple(year: nat, size: nat, count: nat, rest: nat)
    requires (size == 4 || size == 100) && year == size * count + rest
    ensures rest == 0 ==> year % size == 0
  {
    if size == 4 { assert rest == 0 ==> (4 * count) % 4 == 0; }
    if size == 100 { assert rest == 0 ==> (100 * count) % 100 == 0; }
  }

  lemma LeapDays(year: nat)
    requires year >= 1
    ensures DaysBeforeYear(year + 1) == DaysBeforeYear(year) + if Leap(year) then 366 else 365
  {
    Fourths(year);
    Hundredths(year);
    FourHundredths(year);
    Nested(year);
  }

  lemma {:induction false} MonthsAddUp(year: nat, m: nat, n: nat)
    requires 1 <= m < n <= 12
    ensures DaysBeforeMonth(year, m) + DaysInMonth(year, m) <= DaysBeforeMonth(year, n)
    decreases n
  {
    if m < n - 1 { MonthsAddUp(year, m, n - 1); }
  }

  lemma {:induction false} YearsAddUp(a: nat, b: nat)
    requires 1 <= a < b
    ensures DaysBeforeYear(a + 1) <= DaysBeforeYear(b)
    decreases b
  {
    if a + 1 < b {
      YearsAddUp(a, b - 1);
      YearLength(b - 1);
    }
  }

  /** Python compares dates field by field. */
  predicate Before(a: Date, b: Date) {
    a.year < b.year || (a.year == b.year && (a.month < b.month || (a.month == b.month && a.day < b.day)))
  }

  /** Which is the order of their day numbers, so day numbers identify dates. */
  lemma BeforeIsOrdinalOrder(a: Date, b: Date)
    requires a.Valid() && b.Valid()
    ensures Before(a, b) <==> Ordinal(a) < Ordinal(b)
    ensures a == b <==> Ordinal(a) == Ordinal(b)
  {
    if Before(a, b) { BeforeIsLess(a, b); }
    if Before(b, a) { BeforeIsLess(b, a); }
  }

  lemma BeforeIsLess(a: Date, b: Date)
    requires a.Valid() && b.Valid() && Before(a, b)
    ensures Ordinal(a) < Ordinal(b)
  {
    if a.year == b.year {
      if a.month < b.month { MonthsAddUp(a.year, a.month, b.month); }
    } else {
      YearLength(a.year);
      YearsAddUp(a.year, b.year);
      if a.month < 12 { MonthsAddUp(a.year, a.month, 12); }
    }
  }

  /** `d + timedelta(days=7)`. */
  function PlusWeek(d: Date): Date
    requires d.Valid()
  {
    var length := DaysInMonth(d.year, d.month);
    if d.day + 7 <= length then d.(day := d.day + 7)
    else if d.month < 12 then Date(d.year, d.month + 1, d.day + 7 - length)
    else Date(d.year + 1, 1, d.day + 7 - length)
  }

  lemma PlusWeekIsSevenDays(d: Date)
    requires d.Valid()
    ensures PlusWeek(d).Valid() && Ordinal(PlusWeek(d)) == Ordinal(d) + 7
  {
    if d.month == 12 { YearLength(d.year); }
  }

  predicate IsLastThursday(d: Date)
    requires d.Valid()
  {
    Weekday(Ordinal(d)) == THURSDAY && PlusWeek(d).month != d.month
  }

  /** `_is_monthly_contract`. */
  predicate IsMonthlyContract(d: Date)
    requires d.Valid()
  {
    IsLastThursday(d) || (Weekday(Ordinal(d)) != THURSDAY && PlusWeek(d).month != d.month)
  }

  /** A contract counts as monthly on exactly the last seven days of its month, whatever weekday. */
  lemma MonthlyIsLastSevenDays(d: Date)
    requires d.Valid()
    ensures IsMonthlyContract(d) <==> d.day + 7 > DaysInMonth(d.year, d.month)
  {
  }

  /** The day of a month on which the last Thursday falls. */
  function LastThursday(year: nat, month: nat): nat
    requires year >= 1 && 1 <= month <= 12
  {
    var last := Date(year, month, DaysInMonth(year, month));
    last.day - (Weekday(Ordinal(last)) + 4) % 7
  }

  lemma ThursdayWithinAWeek(ordinal: int, back: nat)
    ensures Weekday(ordinal - back) == THURSDAY && back < 7 <==> back == (Weekday(ordinal) + 4) % 7
  {
    var w := Weekday(ordinal);
    assert back < 7 ==> Weekday(ordinal - back) == (w - back) % 7;
  }

  /** Every month has exactly one last Thursday. */
  lemma ExactlyOneLastThursday(year: nat, month: nat, day: nat)
    requires year >= 1 && 1 <= month <= 12 && 1 <= day <= DaysInMonth(year, month)
    ensures IsLastThursday(Date(year, month, day)) <==> day == LastThursday(year, month)
    ensures 1 <= LastThursday(year, month) <= DaysInMonth(year, month)
  {
    var last, d := Date(year, month, DaysInMonth(year, month)), Date(year, month, day);
    var back: nat := last.day - day;
    assert Ordinal(d) == Ordinal(last) - back;
    ThursdayWithinAWeek(Ordinal(last), back);
    assert PlusWeek(d).month != month <==> back < 7;
  }

  // ------------------------------------------------------------------- day numbers

  function NextDay(d: Date): Date
    requires d.Valid()
  {
    if d.day < DaysInMonth(d.year, d.month) then d.(day := d.day + 1)
    else if d.month < 12 then Date(d.year, d.month + 1, 1)
    else Date(d.year + 1, 1, 1)
  }

  lemma NextDayIsOneLater(d: Date)
    requires d.Valid()
    ensures NextDay(d).Valid() && Ordinal(NextDay(d)) == Ordinal(d) + 1
  {
    if d.month == 12 { YearLength(d.year); }
  }

  /** `date.fromordinal`. */
  function FromOrdinal(n: nat): (d: Date)
    requires n >= 1
    ensures d.Valid() && Ordinal(d) == n
  {
    if n == 1 then Date(1, 1, 1)
    else
      NextDayIsOneLater(FromOrdinal(n - 1));
      NextDay(FromOrdinal(n - 1))
  }

  /** Day numbers and dates are one to one. */
  lemma OrdinalRoundTrip(d: Date)
    requires d.Valid()
    ensures Ordinal(d) >= 1 && FromOrdinal(Ordinal(d)) == d
  {
    BeforeIsOrdinalOrder(FromOrdinal(Ordinal(d)), d);
  }
}
