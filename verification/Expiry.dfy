/** Selection of next week's option expiry (src/trading/identification/calendar.py:256-422). */
module Expiry {
  import opened Wrappers
  import opened Ordering
  import opened Calendar

  type Day = d: Date | d.Valid() witness Date(1, 1, 1)

  function Monday(asOf: Day): int { Ordinal(asOf) - Weekday(Ordinal(asOf)) + 7 }

  function Sunday(asOf: Day): int { Monday(asOf) + 6 }

  function Thursday(asOf: Day): int { Monday(asOf) + 3 }

  /** The following calendar week: it starts after today, and its Thursday is 4 to 10 days out, so
      the ban on 0 and 1 days never reaches it. */
  lemma FollowingWeek(asOf: Day)
    ensures Weekday(Monday(asOf)) == 0 && Weekday(Thursday(asOf)) == THURSDAY
    ensures 1 <= Monday(asOf) - Ordinal(asOf) <= 7
    ensures 4 <= Thursday(asOf) - Ordinal(asOf) <= 10
  {
    NextMonday(Ordinal(asOf));
  }

  lemma NextMonday(n: int)
    ensures 0 <= Weekday(n) <= 6
    ensures Weekday(n - Weekday(n) + 7) == 0 && Weekday(n - Weekday(n) + 10) == THURSDAY
  {
    var weeks := (n + 6) / 7;
    assert n - Weekday(n) + 13 == 7 * (weeks + 1) && n - Weekday(n) + 16 == 7 * (weeks + 1) + 3;
  }

  /** A day is in the following week exactly if its own week starts on that week's Monday. */
  lemma WeekOfADay(asOf: Day, n: int)
    ensures Monday(asOf) <= n <= Sunday(asOf) <==> n - Weekday(n) == Monday(asOf)
    ensures Weekday(Sunday(asOf)) == 6
  {
    NextMonday(Ordinal(asOf));
    NextMonday(n);
    if Monday(asOf) <= n <= Sunday(asOf) { WeeksApart(n - Weekday(n), Monday(asOf)); }
    WithinTheWeek(Monday(asOf), 6);
  }

  lemma WeeksApart(m: int, n: int)
    requires Weekday(m) == 0 && Weekday(n) == 0 && -7 < m - n < 7
    ensures m == n
  {
  }

  lemma WithinTheWeek(monday: int, k: int)
    requires Weekday(monday) == 0 && 0 <= k <= 6
    ensures Weekday(monday + k) == k
  {
  }

  /** Every day is past, today or tomorrow, or at least two days out, and only the last may be selected. */
  lemma TodayAndTomorrowAreBanned(e: Day, asOf: Day)
    ensures TooClose(e, asOf) <==> Ordinal(e) == Ordinal(asOf) || Ordinal(e) == Ordinal(asOf) + 1
    ensures Eligible(e, asOf) <==> !TooClose(e, asOf) && Ordinal(e) >= Ordinal(asOf)
    ensures Eligible(e, asOf) <==> InWeek(e, asOf) || AfterWeek(e, asOf) || BeforeWeek(e, asOf)
    ensures !(InWeek(e, asOf) && AfterWeek(e, asOf)) && !(InWeek(e, asOf) && BeforeWeek(e, asOf))
  {
  }

  /** Not 0 or 1 days to expiry, and not past. */
  predicate Eligible(e: Day, asOf: Day) { Ordinal(e) - Ordinal(asOf) > 1 }

  predicate InWeek(e: Day, asOf: Day) { Eligible(e, asOf) && Monday(asOf) <= Ordinal(e) <= Sunday(asOf) }

  predicate AfterWeek(e: Day, asOf: Day) { Eligible(e, asOf) && Ordinal(e) > Sunday(asOf) }

  predicate BeforeWeek(e: Day, asOf: Day) { Eligible(e, asOf) && Ordinal(e) < Monday(asOf) }

  predicate TooClose(e: Day, asOf: Day) { 0 <= Ordinal(e) - Ordinal(asOf) <= 1 }

  // --------------------------------------------------------------- sorted(set(...))

  function InsertNew(x: Day, days: seq<Day>): seq<Day> {
    if days == [] || Before(x, days[0]) then [x] + days
    else if x == days[0] then days
    else [days[0]] + InsertNew(x, days[1..])
  }

  function SortedSet(listed: seq<Day>): seq<Day> {
    if listed == [] then [] else InsertNew(listed[|listed| - 1], SortedSet(listed[..|listed| - 1]))
  }

  ghost predicate Rising(days: seq<Day>) {
    forall i, j | 0 <= i < j < |days| :: Ordinal(days[i]) < Ordinal(days[j])
  }

  lemma {:induction false} InsertNewRises(x: Day, days: seq<Day>)
    requires Rising(days)
    ensures Rising(InsertNew(x, days))
    ensures forall d :: d in InsertNew(x, days) <==> d == x || d in days
  {
    if days != [] {
      BeforeIsOrdinalOrder(x, days[0]);
      if !Before(x, days[0]) && x != days[0] {
        InsertNewRises(x, days[1..]);
        var tail := InsertNew(x, days[1..]);
        forall j | 0 <= j < |tail| ensures Ordinal(days[0]) < Ordinal(tail[j]) {
          assert tail[j] in tail;
        }
      }
    }
  }

  lemma {:induction false} SortedSetRises(listed: seq<Day>)
    ensures Rising(SortedSet(listed))
    ensures forall d :: d in SortedSet(listed) <==> d in listed
  {
    if listed != [] {
      var n := |listed| - 1;
      SortedSetRises(listed[..n]);
      InsertNewRises(listed[n], SortedSet(listed[..n]));
      assert listed == listed[..n] + [listed[n]];
    }
  }

  // ------------------------------------------------------------------------ selection

  datatype Reason = Selected | TooCloseExcluded | NoEligibleExpiry

  datatype Selection = Selection(
    expiry: Option<Day>, dte: Option<int>, weekStart: int, weekEnd: int,
    holidaySubstituted: bool, monthlySubstituted: bool, reason: Reason)

  function Week(asOf: Day): Day -> bool { (e: Day) => InWeek(e, asOf) }

  function Later(asOf: Day): Day -> bool { (e: Day) => AfterWeek(e, asOf) }

  function Sooner(asOf: Day): Day -> bool { (e: Day) => BeforeWeek(e, asOf) }

  function Close(asOf: Day): Day -> bool { (e: Day) => TooClose(e, asOf) }

  function Find(ordinal: int, days: seq<Day>): Option<Day> {
    if days == [] then None else if Ordinal(days[0]) == ordinal then Some(days[0]) else Find(ordinal, days[1..])
  }

  function Pick(expiry: Day, asOf: Day, holidaySubstituted: bool): Selection {
    Selection(Some(expiry), Some(Ordinal(expiry) - Ordinal(asOf)), Monday(asOf), Sunday(asOf),
              holidaySubstituted, IsMonthlyContract(expiry), Selected)
  }

  function Refuse(all: seq<Day>, asOf: Day): Selection {
    Selection(None, None, Monday(asOf), Sunday(asOf), false, false,
              if Filter(Close(asOf), all) != [] then TooCloseExcluded else NoEligibleExpiry)
  }

  /** `select_m2_expiry`; `holidays` are day numbers. */
  function Select(listed: seq<Day>, asOf: Day, holidays: set<int>, allowFallback: bool): Selection {
    var all := SortedSet(listed);
    var week, later, sooner := Filter(Week(asOf), all), Filter(Later(asOf), all), Filter(Sooner(asOf), all);
    if week != [] then
      Pick(Find(Thursday(asOf), week).GetOr(week[0]), asOf, Thursday(asOf) in holidays)
    else if allowFallback && later != [] then Pick(later[0], asOf, false)
    else if allowFallback && sooner != [] then Pick(sooner[|sooner| - 1], asOf, false)
    else Refuse(all, asOf)
  }

  // -------------------------------------------------------------------- specification

  ghost predicate AnyListed(listed: seq<Day>, p: Day -> bool) { exists e :: e in listed && p(e) }

  /** Next week's Thursday if listed, else that week's earliest; with the fallback the nearest day
      after that week, else the latest before it. Only the set of listed days matters. */
  ghost predicate Chosen(listed: seq<Day>, asOf: Day, allowFallback: bool, e: Day) {
    && e in listed && Eligible(e, asOf)
    && if AnyListed(listed, Week(asOf)) then
         && InWeek(e, asOf)
         && (Ordinal(e) != Thursday(asOf) ==>
               && (forall x | x in listed :: Ordinal(x) != Thursday(asOf))
               && (forall x | x in listed && InWeek(x, asOf) :: Ordinal(e) <= Ordinal(x)))
       else if AnyListed(listed, Later(asOf)) then
         && allowFallback && AfterWeek(e, asOf)
         && (forall x | x in listed && AfterWeek(x, asOf) :: Ordinal(e) <= Ordinal(x))
       else
         allowFallback && (forall x | x in listed && Eligible(x, asOf) :: Ordinal(x) <= Ordinal(e))
  }

  lemma ChosenIsUnique(listed: seq<Day>, asOf: Day, allowFallback: bool, a: Day, b: Day)
    requires Chosen(listed, asOf, allowFallback, a) && Chosen(listed, asOf, allowFallback, b)
    ensures a == b
  {
    BeforeIsOrdinalOrder(a, b);
  }

  lemma {:induction false} FilterRises(p: Day -> bool, days: seq<Day>)
    requires Rising(days)
    ensures Rising(Filter(p, days))
  {
    if days != [] {
      var n := |days| - 1;
      FilterRises(p, days[..n]);
      FilterMembers(p, days[..n]);
      forall i | 0 <= i < |Filter(p, days[..n])| ensures Ordinal(Filter(p, days[..n])[i]) < Ordinal(days[n]) {
        assert Filter(p, days[..n])[i] in days[..n];
      }
    }
  }

  /** The candidates of one kind: the listed days of that kind. */
  lemma CandidateMembers(listed: seq<Day>, p: Day -> bool)
    ensures var c := Filter(p, SortedSet(listed));
            Rising(c) && forall x :: x in c <==> x in listed && p(x)
  {
    SortedSetRises(listed);
    FilterMembers(p, SortedSet(listed));
    FilterRises(p, SortedSet(listed));
  }

  /** They are in rising order, so the ends are the earliest and the latest. */
  lemma Candidates(listed: seq<Day>, p: Day -> bool)
    ensures var c := Filter(p, SortedSet(listed));
            && (c != [] <==> AnyListed(listed, p))
            && (c != [] ==> c[0] in listed && p(c[0]) && c[|c| - 1] in listed && p(c[|c| - 1]))
            && (forall x | x in listed && p(x) :: Ordinal(c[0]) <= Ordinal(x) <= Ordinal(c[|c| - 1]))
  {
    CandidateMembers(listed, p);
    EndsOf(Filter(p, SortedSet(listed)));
  }

  lemma EndsOf(days: seq<Day>)
    requires Rising(days)
    ensures days != [] ==> days[0] in days && days[|days| - 1] in days
    ensures forall x | x in days :: Ordinal(days[0]) <= Ordinal(x) <= Ordinal(days[|days| - 1])
  {
  }

  lemma {:induction false} FindMeans(ordinal: int, days: seq<Day>)
    ensures Find(ordinal, days).Some? ==>
              Find(ordinal, days).value in days && Ordinal(Find(ordinal, days).value) == ordinal
    ensures Find(ordinal, days).None? ==> forall x | x in days :: Ordinal(x) != ordinal
  {
    if days != [] && Ordinal(days[0]) != ordinal { FindMeans(ordinal, days[1..]); }
  }

  lemma SelectInWeek(listed: seq<Day>, asOf: Day, holidays: set<int>, allowFallback: bool)
    requires AnyListed(listed, Week(asOf))
    ensures var r := Select(listed, asOf, holidays, allowFallback);
            r.expiry.Some? && Chosen(listed, asOf, allowFallback, r.expiry.value)
  {
    Candidates(listed, Week(asOf));
    CandidateMembers(listed, Week(asOf));
    var week := Filter(Week(asOf), SortedSet(listed));
    FindMeans(Thursday(asOf), week);
    FollowingWeek(asOf);
    forall x | x in listed && Ordinal(x) == Thursday(asOf) ensures x in week {
      assert Week(asOf)(x);
    }
  }

  lemma SelectLater(listed: seq<Day>, asOf: Day, holidays: set<int>)
    requires !AnyListed(listed, Week(asOf)) && AnyListed(listed, Later(asOf))
    ensures var r := Select(listed, asOf, holidays, true);
            r.expiry.Some? && Chosen(listed, asOf, true, r.expiry.value)
  {
    Candidates(listed, Week(asOf));
    Candidates(listed, Later(asOf));
  }

  lemma LatestSooner(listed: seq<Day>, asOf: Day) returns (chosen: Day)
    requires AnyListed(listed, Sooner(asOf))
    ensures var c := Filter(Sooner(asOf), SortedSet(listed)); c != [] && chosen == c[|c| - 1]
    ensures chosen in listed && BeforeWeek(chosen, asOf)
    ensures forall x | x in listed && Sooner(asOf)(x) :: Ordinal(x) <= Ordinal(chosen)
  {
    Candidates(listed, Sooner(asOf));
    var c := Filter(Sooner(asOf), SortedSet(listed));
    chosen := c[|c| - 1];
  }

  lemma NoCandidates(listed: seq<Day>, p: Day -> bool)
    requires !AnyListed(listed, p)
    ensures Filter(p, SortedSet(listed)) == []
  {
    Candidates(listed, p);
  }

  lemma PicksLatestSooner(listed: seq<Day>, asOf: Day, holidays: set<int>)
    requires Filter(Week(asOf), SortedSet(listed)) == [] && Filter(Later(asOf), SortedSet(listed)) == []
    requires Filter(Sooner(asOf), SortedSet(listed)) != []
    ensures var sooner := Filter(Sooner(asOf), SortedSet(listed));
            Select(listed, asOf, holidays, true).expiry == Some(sooner[|sooner| - 1])
  {
  }

  lemma SelectSooner(listed: seq<Day>, asOf: Day, holidays: set<int>)
    requires !AnyListed(listed, Week(asOf)) && !AnyListed(listed, Later(asOf)) && AnyListed(listed, Sooner(asOf))
    ensures exists e :: Select(listed, asOf, holidays, true).expiry == Some(e) && Chosen(listed, asOf, true, e)
  {
    NoCandidates(listed, Week(asOf));
    NoCandidates(listed, Later(asOf));
    var chosen := LatestSooner(listed, asOf);
    PicksLatestSooner(listed, asOf, holidays);
  }

  lemma SelectNothing(listed: seq<Day>, asOf: Day, holidays: set<int>)
    requires !AnyListed(listed, Week(asOf)) && !AnyListed(listed, Later(asOf)) && !AnyListed(listed, Sooner(asOf))
    ensures Select(listed, asOf, holidays, true).expiry.None?
    ensures forall e | e in listed :: !Eligible(e, asOf)
  {
    Candidates(listed, Week(asOf));
    Candidates(listed, Later(asOf));
    Candidates(listed, Sooner(asOf));
  }

  lemma SelectFallback(listed: seq<Day>, asOf: Day, holidays: set<int>)
    requires !AnyListed(listed, Week(asOf))
    ensures var r := Select(listed, asOf, holidays, true);
            && (r.expiry.Some? <==> exists e :: e in listed && Eligible(e, asOf))
            && (r.expiry.Some? ==> Chosen(listed, asOf, true, r.expiry.value))
  {
    if AnyListed(listed, Later(asOf)) {
      SelectLater(listed, asOf, holidays);
    } else if AnyListed(listed, Sooner(asOf)) {
      SelectSooner(listed, asOf, holidays);
    } else {
      SelectNothing(listed, asOf, holidays);
    }
  }

  /** The selection is exactly the declared choice, on every listing and date; it is refused exactly
      when nothing meets it, and with the fallback that means nothing listed is two days out. */
  lemma SelectIsChosen(listed: seq<Day>, asOf: Day, holidays: set<int>, allowFallback: bool, e: Day)
    ensures Select(listed, asOf, holidays, allowFallback).expiry == Some(e) <==> Chosen(listed, asOf, allowFallback, e)
    ensures Select(listed, asOf, holidays, true).expiry.Some? <==>
              exists x :: x in listed && Ordinal(x) >= Ordinal(asOf) + 2
  {
    if AnyListed(listed, Week(asOf)) {
      SelectInWeek(listed, asOf, holidays, allowFallback);
      SelectInWeek(listed, asOf, holidays, true);
      if Chosen(listed, asOf, allowFallback, e) {
        ChosenIsUnique(listed, asOf, allowFallback, e, Select(listed, asOf, holidays, allowFallback).expiry.value);
      }
    } else {
      SelectFallback(listed, asOf, holidays);
      Candidates(listed, Week(asOf));
      if allowFallback && Chosen(listed, asOf, true, e) {
        ChosenIsUnique(listed, asOf, true, e, Select(listed, asOf, holidays, true).expiry.value);
      }
    }
  }

  lemma HeadIsMember(days: seq<Day>)
    ensures days != [] ==> days[0] in days
  {
  }

  lemma {:induction false} RisingUnique(a: seq<Day>, b: seq<Day>)
    requires Rising(a) && Rising(b) && forall d :: d in a <==> d in b
    ensures a == b
  {
    HeadIsMember(a);
    HeadIsMember(b);
    if a != [] && b != [] {
      assert a[0] in b && b[0] in a;
      BeforeIsOrdinalOrder(a[0], b[0]);
      assert a[0] == b[0];
      forall d ensures d in a[1..] <==> d in b[1..] {
        assert d in a[1..] ==> d in a && Ordinal(d) > Ordinal(a[0]);
        assert d in b[1..] ==> d in b && Ordinal(d) > Ordinal(b[0]);
        assert d in a <==> d == a[0] || d in a[1..];
        assert d in b <==> d == b[0] || d in b[1..];
      }
      RisingUnique(a[1..], b[1..]);
      assert a == [a[0]] + a[1..] && b == [b[0]] + b[1..];
    }
  }

  /** Neither the order of the listing nor repeats in it change any part of the answer. */
  lemma SelectIgnoresOrder(a: seq<Day>, b: seq<Day>, asOf: Day, holidays: set<int>, allowFallback: bool)
    requires forall d :: d in a <==> d in b
    ensures Select(a, asOf, holidays, allowFallback) == Select(b, asOf, holidays, allowFallback)
  {
    SortedSetRises(a);
    SortedSetRises(b);
    RisingUnique(SortedSet(a), SortedSet(b));
  }

  ghost predicate AnyEligible(listed: seq<Day>, asOf: Day) { exists e :: e in listed && Eligible(e, asOf) }

  /** A day can be selected: next week's, or with the fallback any that is two days out. */
  ghost predicate Selectable(listed: seq<Day>, asOf: Day, allowFallback: bool) {
    AnyListed(listed, Week(asOf)) || (allowFallback && AnyEligible(listed, asOf))
  }

  lemma SelectsWhenSelectable(listed: seq<Day>, asOf: Day, holidays: set<int>, allowFallback: bool)
    ensures Select(listed, asOf, holidays, allowFallback).expiry.Some? <==> Selectable(listed, asOf, allowFallback)
  {
    if AnyListed(listed, Week(asOf)) {
      SelectInWeek(listed, asOf, holidays, allowFallback);
    } else {
      NoCandidates(listed, Week(asOf));
      if allowFallback { SelectFallback(listed, asOf, holidays); }
    }
  }

  /** Which of the three reasons is reported, by what is listed. A refusal names the ban on 0 and 1
      days whenever such a day is listed, even when days that the ban does not touch are listed too. */
  lemma RefusalReason(listed: seq<Day>, asOf: Day, holidays: set<int>, allowFallback: bool)
    ensures var r := Select(listed, asOf, holidays, allowFallback);
            && (r.reason.Selected? <==> r.expiry.Some?)
            && (r.expiry.None? ==> r.dte.None? && !r.holidaySubstituted && !r.monthlySubstituted)
            && (r.reason.Selected? <==> Selectable(listed, asOf, allowFallback))
            && (r.reason.TooCloseExcluded? <==>
                  !Selectable(listed, asOf, allowFallback) && AnyListed(listed, Close(asOf)))
  {
    Candidates(listed, Close(asOf));
    SelectsWhenSelectable(listed, asOf, holidays, allowFallback);
  }

  /** The method's documentation says the ban is named when it alone is to blame. It is named while an
      unbanned day is listed exactly without the fallback, when next week has none and a banned day is
      listed; with the fallback the documentation always holds. */
  lemma BlamedForMoreExactly(listed: seq<Day>, asOf: Day, holidays: set<int>, allowFallback: bool)
    ensures Select(listed, asOf, holidays, allowFallback).reason.TooCloseExcluded? && AnyEligible(listed, asOf)
       <==> && !allowFallback && !AnyListed(listed, Week(asOf))
            && AnyListed(listed, Close(asOf)) && AnyEligible(listed, asOf)
  {
    RefusalReason(listed, asOf, holidays, allowFallback);
  }

  /** Tomorrow and a day beyond next week are listed: without the fallback the refusal blames the ban,
      which the later day does not fall under. */
  lemma BanIsBlamedForMore(asOf: Day, near: Day, far: Day, holidays: set<int>)
    requires TooClose(near, asOf) && AfterWeek(far, asOf)
    ensures Select([near, far], asOf, holidays, false).reason == TooCloseExcluded && Eligible(far, asOf)
  {
    var listed := [near, far];
    SelectIsChosen(listed, asOf, holidays, false, near);
    SelectIsChosen(listed, asOf, holidays, false, far);
    RefusalReason(listed, asOf, holidays, false);
    assert near in listed && far in listed && Close(asOf)(near) && Later(asOf)(far);
    forall e | e in listed ensures !Chosen(listed, asOf, false, e) {
      assert e == near || e == far;
    }
    var r := Select(listed, asOf, holidays, false);
    if r.expiry.Some? { SelectIsChosen(listed, asOf, holidays, false, r.expiry.value); }
  }

  /** New Year's Day 2024, with the next day and the first of February listed. */
  lemma BanIsBlamedForFebruary()
    ensures Select([Date(2024, 1, 2), Date(2024, 2, 1)], Date(2024, 1, 1), {}, false).reason == TooCloseExcluded
    ensures Eligible(Date(2024, 2, 1), Date(2024, 1, 1))
  {
    BanIsBlamedForMore(Date(2024, 1, 1), Date(2024, 1, 2), Date(2024, 2, 1), {});
  }

  /** What is selected is at least two days out, and it is marked as a holiday substitute exactly
      when that week's Thursday is a holiday, even if that Thursday itself is what was listed. */
  lemma SelectedFacts(listed: seq<Day>, asOf: Day, holidays: set<int>, allowFallback: bool, e: Day)
    requires Select(listed, asOf, holidays, allowFallback).expiry == Some(e)
    ensures var r := Select(listed, asOf, holidays, allowFallback);
            r.dte == Some(Ordinal(e) - Ordinal(asOf)) && r.dte.value >= 2
    ensures Select(listed, asOf, holidays, allowFallback).holidaySubstituted <==>
              AnyListed(listed, Week(asOf)) && Thursday(asOf) in holidays
  {
    SelectIsChosen(listed, asOf, holidays, allowFallback, e);
    SubstitutionFlag(listed, asOf, holidays, allowFallback);
  }

  /** And as a monthly contract exactly when it falls on the last seven days of its month. */
  lemma MonthlyFlag(listed: seq<Day>, asOf: Day, holidays: set<int>, allowFallback: bool, e: Day)
    requires Select(listed, asOf, holidays, allowFallback).expiry == Some(e)
    ensures Select(listed, asOf, holidays, allowFallback).monthlySubstituted <==>
              e.day + 7 > DaysInMonth(e.year, e.month)
  {
    MonthlyIsLastSevenDays(e);
  }

  lemma SubstitutionFlag(listed: seq<Day>, asOf: Day, holidays: set<int>, allowFallback: bool)
    ensures Select(listed, asOf, holidays, allowFallback).holidaySubstituted <==>
              AnyListed(listed, Week(asOf)) && Thursday(asOf) in holidays
  {
    Candidates(listed, Week(asOf));
  }
}
