/** Replay of stored events (src/trading/data/replay.py:30-110): fetch cycles are recovered from
    receive times alone. Instants are integer microseconds. */
module Replay {
  import opened Wrappers
  import opened Ordering

  datatype Event = Event(time: int, kind: string, id: string)

  /** A gap of more than one second starts a new cycle. */
  const MAX_GAP := 1_000_000

  const CLOCK_SLACK := 15 * 60 * 1_000_000

  predicate Earlier(a: Event, b: Event) { a.time < b.time }

  function Front(groups: seq<seq<Event>>): seq<seq<Event>>
    requires groups != []
  {
    groups[..|groups| - 1]
  }

  function Final(groups: seq<seq<Event>>): seq<Event>
    requires groups != []
  {
    groups[|groups| - 1]
  }

  function Flatten(groups: seq<seq<Event>>): seq<Event> {
    if groups == [] then [] else Flatten(Front(groups)) + Final(groups)
  }

  ghost predicate Close(group: seq<Event>) {
    forall i | 0 < i < |group| :: group[i].time - group[i - 1].time <= MAX_GAP
  }

  ghost predicate Apart(a: seq<Event>, b: seq<Event>) {
    a != [] && b != [] && b[0].time - a[|a| - 1].time > MAX_GAP
  }

  /** Groups of events at most a second apart, each more than a second after the one before. */
  ghost predicate Cycles(groups: seq<seq<Event>>) {
    groups == [] ||
    (&& Cycles(Front(groups))
     && Final(groups) != [] && Close(Final(groups))
     && (Front(groups) == [] || Apart(Final(Front(groups)), Final(groups))))
  }

  /** What the loop keeps: the finished groups and the current one partition the events so far. */
  ghost predicate Grouping(groups: seq<seq<Event>>, current: seq<Event>, events: seq<Event>) {
    && current != [] && events != [] && current[|current| - 1] == events[|events| - 1]
    && Cycles(groups + [current])
    && Flatten(groups) + current == events
  }

  /** Two events a second apart are one cycle, and a microsecond more makes them two. */
  lemma OneSecondApart(a: Event, b: Event)
    ensures Cycles([[a, b]]) <==> b.time - a.time <= 1_000_000
    ensures Cycles([[a], [b]]) <==> b.time - a.time > 1_000_000
  {
    assert Front([[a, b]]) == [] && Final([[a, b]]) == [a, b];
    assert Front([[a], [b]]) == [[a]] && Final([[a], [b]]) == [b];
    assert Front([[a]]) == [] && Final([[a]]) == [a];
    var none: seq<seq<Event>> := [];
    assert Cycles(none) && Front([[a]]) == none && Close([a]) && Close([b]);
    assert Cycles([[a]]);
    assert Close([a, b]) <==> [a, b][1].time - [a, b][0].time <= MAX_GAP;
    assert Apart([a], [b]) <==> b.time - a.time > MAX_GAP;
  }

  lemma FirstGroup(event: Event)
    ensures Grouping([], [event], [event])
  {
    var groups := [] + [[event]];
    assert Cycles(Front(groups)) && Final(groups) != [] && Close(Final(groups));
  }

  lemma StartGroup(groups: seq<seq<Event>>, current: seq<Event>, events: seq<Event>, event: Event)
    requires Grouping(groups, current, events) && event.time - current[|current| - 1].time > MAX_GAP
    ensures Grouping(groups + [current], [event], events + [event])
  {
  }

  lemma ExtendGroup(groups: seq<seq<Event>>, current: seq<Event>, events: seq<Event>, event: Event)
    requires Grouping(groups, current, events) && event.time - current[|current| - 1].time <= MAX_GAP
    ensures Grouping(groups, current + [event], events + [event])
  {
    var before, after := groups + [current], groups + [current + [event]];
    assert Front(before) == groups && Final(before) == current;
    assert Front(after) == groups && Final(after) == current + [event];
    CloseExtends(current, event);
    assert Flatten(groups) + (current + [event]) == (Flatten(groups) + current) + [event];
  }

  lemma CloseExtends(current: seq<Event>, event: Event)
    requires current != [] && Close(current) && event.time - current[|current| - 1].time <= MAX_GAP
    ensures Close(current + [event])
  {
  }

  lemma GroupingEnds(groups: seq<seq<Event>>, current: seq<Event>, events: seq<Event>)
    requires Grouping(groups, current, events)
    ensures Cycles(groups + [current]) && Flatten(groups + [current]) == events
  {
    assert Front(groups + [current]) == groups && Final(groups + [current]) == current;
  }

  /** The event after some that are grouped joins the current group, or starts the next one. */
  lemma GroupNext(groups: seq<seq<Event>>, current: seq<Event>, ordered: seq<Event>, i: nat)
    requires i < |ordered| && Grouping(groups, current, ordered[..i])
    ensures if ordered[i].time - current[|current| - 1].time > MAX_GAP
            then Grouping(groups + [current], [ordered[i]], ordered[..i + 1])
            else Grouping(groups, current + [ordered[i]], ordered[..i + 1])
  {
    assert ordered[..i + 1] == ordered[..i] + [ordered[i]];
    if ordered[i].time - current[|current| - 1].time > MAX_GAP {
      StartGroup(groups, current, ordered[..i], ordered[i]);
    } else {
      ExtendGroup(groups, current, ordered[..i], ordered[i]);
    }
  }

  method GroupOrdered(ordered: seq<Event>) returns (result: seq<seq<Event>>)
    requires ordered != []
    ensures Cycles(result) && Flatten(result) == ordered
  {
    var groups: seq<seq<Event>> := [];
    var current := [ordered[0]];
    FirstGroup(ordered[0]);
    assert ordered[..1] == [ordered[0]];
    for i := 1 to |ordered|
      invariant Grouping(groups, current, ordered[..i])
    {
      var event := ordered[i];
      GroupNext(groups, current, ordered, i);
      if event.time - current[|current| - 1].time > MAX_GAP {
        groups := groups + [current];
        current := [event];
      } else {
        current := current + [event];
      }
    }
    assert ordered[..|ordered|] == ordered;
    GroupingEnds(groups, current, ordered);
    result := groups + [current];
  }

  /** `_group_events`. */
  method GroupEvents(events: seq<Event>) returns (result: seq<seq<Event>>)
    ensures Cycles(result) && Flatten(result) == Sort(Earlier, events)
  {
    if events == [] {
      return [];
    }
    SortPermutes(Earlier, events);
    result := GroupOrdered(Sort(Earlier, events));
  }

  // ------------------------------------------------------------------- uniqueness

  function Times(events: seq<Event>): (ts: seq<int>)
    ensures |ts| == |events| && forall i | 0 <= i < |ts| :: ts[i] == events[i].time
  {
    seq(|events|, i requires 0 <= i < |events| => events[i].time)
  }

  /** Right before the last cycle there is a long gap, and inside it there is none. */
  lemma GapBeforeFinal(groups: seq<seq<Event>>)
    requires Cycles(groups) && groups != [] && |Final(groups)| < |Flatten(groups)|
    ensures var cut := |Flatten(groups)| - |Final(groups)|;
            Times(Flatten(groups))[cut] - Times(Flatten(groups))[cut - 1] > MAX_GAP
  {
    var front := Front(groups);
    assert Flatten(front) == Flatten(Front(front)) + Final(front);
  }

  lemma NoGapInFinal(groups: seq<seq<Event>>, i: nat)
    requires Cycles(groups) && groups != []
    requires |Flatten(groups)| - |Final(groups)| < i < |Flatten(groups)|
    ensures Times(Flatten(groups))[i] - Times(Flatten(groups))[i - 1] <= MAX_GAP
  {
    var k := i - |Flatten(Front(groups))|;
    assert Flatten(groups)[i] == Final(groups)[k] && Flatten(groups)[i - 1] == Final(groups)[k - 1];
  }

  /** So the times alone settle how long the last cycle is. */
  lemma LastCycleNotShorter(p: seq<seq<Event>>, q: seq<seq<Event>>)
    requires Cycles(p) && Cycles(q) && p != [] && q != []
    requires Times(Flatten(p)) == Times(Flatten(q))
    ensures |Final(p)| >= |Final(q)|
  {
    assert |Flatten(p)| == |Times(Flatten(p))| == |Flatten(q)|;
    if |Final(p)| < |Final(q)| {
      var cut := |Flatten(p)| - |Final(p)|;
      NoGapInFinal(q, cut);
      GapBeforeFinal(p);
    }
  }

  lemma TimesAppend(a: seq<Event>, b: seq<Event>)
    ensures Times(a + b) == Times(a) + Times(b)
  {
  }

  lemma FrontTimes(p: seq<seq<Event>>, q: seq<seq<Event>>)
    requires p != [] && q != [] && |Final(p)| == |Final(q)| && Times(Flatten(p)) == Times(Flatten(q))
    ensures Times(Flatten(Front(p))) == Times(Flatten(Front(q)))
    ensures Times(Final(p)) == Times(Final(q))
  {
    TimesAppend(Flatten(Front(p)), Final(p));
    TimesAppend(Flatten(Front(q)), Final(q));
    SplitEqual(Times(Flatten(Front(p))), Times(Final(p)), Times(Flatten(Front(q))), Times(Final(q)));
  }

  lemma {:induction false} SameShape(p: seq<seq<Event>>, q: seq<seq<Event>>)
    requires Cycles(p) && Cycles(q) && Times(Flatten(p)) == Times(Flatten(q))
    ensures |p| == |q| && forall k | 0 <= k < |p| :: |p[k]| == |q[k]|
  {
    assert |Flatten(p)| == |Times(Flatten(p))| == |Flatten(q)|;
    if p != [] {
      LastCycleNotShorter(p, q);
      LastCycleNotShorter(q, p);
      FrontTimes(p, q);
      SameShape(Front(p), Front(q));
      assert p == Front(p) + [Final(p)] && q == Front(q) + [Final(q)];
    }
  }

  lemma {:induction false} SameShapeSameEvents(p: seq<seq<Event>>, q: seq<seq<Event>>)
    requires |p| == |q| && (forall k | 0 <= k < |p| :: |p[k]| == |q[k]|) && Flatten(p) == Flatten(q)
    ensures p == q
  {
    if p != [] {
      SplitEqual(Flatten(Front(p)), Final(p), Flatten(Front(q)), Final(q));
      SameShapeSameEvents(Front(p), Front(q));
      assert p == Front(p) + [Final(p)] && q == Front(q) + [Final(q)];
    }
  }

  /** The grouping is the only partition of the ordered events with these gaps. */
  lemma CyclesAreUnique(p: seq<seq<Event>>, q: seq<seq<Event>>)
    requires Cycles(p) && Cycles(q) && Flatten(p) == Flatten(q)
    ensures p == q
  {
    SameShape(p, q);
    SameShapeSameEvents(p, q);
  }

  // ------------------------------------------------------------------- round trip

  ghost predicate InOrder(events: seq<Event>) {
    forall i, j | 0 <= i < j < |events| :: events[i].time <= events[j].time
  }

  lemma EarlierStrictWeak()
    ensures StrictWeak(Earlier)
  {
  }

  lemma {:induction false} TimesPermute(xs: seq<Event>, ys: seq<Event>)
    requires Permutation(xs, ys)
    ensures Permutation(Times(xs), Times(ys))
    decreases |xs|
  {
    PermutationMembers(xs, ys);
    if xs == [] {
    } else {
      var j := PermutationTail(xs, ys);
      var rest := ys[..j] + ys[j + 1..];
      TimesPermute(xs[1..], rest);
      assert Times(xs) == [xs[0].time] + Times(xs[1..]);
      assert Times(rest) == Times(ys)[..j] + Times(ys)[j + 1..];
      RemoveAt(Times(ys), j);
      MultisetTail(Times(xs));
      assert Times(xs)[1..] == Times(xs[1..]);
      assert Times(ys)[j] in multiset(Times(ys));
    }
  }

  predicate Less(a: int, b: int) { a < b }

  lemma SortedTimesAgree(xs: seq<Event>, ys: seq<Event>)
    requires Permutation(xs, ys) && InOrder(xs) && InOrder(ys)
    ensures Times(xs) == Times(ys)
  {
    TimesPermute(xs, ys);
    SortedUnique(Less, Times(xs), Times(ys));
  }

  predicate Before(t: int, e: Event) { e.time < t }

  function BeforeTime(t: int): Event -> bool { (e: Event) => Before(t, e) }

  lemma PrefixIsFilter(front: seq<Event>, rest: seq<Event>, t: int)
    requires forall i | 0 <= i < |front| :: front[i].time < t
    requires forall i | 0 <= i < |rest| :: rest[i].time >= t
    ensures Filter(BeforeTime(t), front + rest) == front
  {
    FilterAppend(BeforeTime(t), front, rest);
    FilterAll(BeforeTime(t), front);
    FilterNone(BeforeTime(t), rest);
  }

  lemma FrontIsFilter(groups: seq<seq<Event>>, t: int)
    requires Cycles(groups) && groups != [] && InOrder(Flatten(groups)) && t == Final(groups)[0].time
    ensures Filter(BeforeTime(t), Flatten(groups)) == Flatten(Front(groups))
    ensures InOrder(Flatten(Front(groups)))
  {
    var all, front, last := Flatten(groups), Flatten(Front(groups)), Final(groups);
    assert all == front + last && all[|front|] == last[0];
    forall i | 0 <= i < |front| ensures front[i].time < t {
      GapBeforeFinal(groups);
      assert all[i] == front[i] && all[|front| - 1] == front[|front| - 1];
    }
    forall i | 0 <= i < |last| ensures last[i].time >= t {
      assert all[|front| + i] == last[i];
    }
    PrefixIsFilter(front, last, t);
    PrefixInOrder(front, last);
  }

  lemma PrefixInOrder(front: seq<Event>, rest: seq<Event>)
    requires InOrder(front + rest)
    ensures InOrder(front)
  {
    forall i, j | 0 <= i < j < |front| ensures front[i].time <= front[j].time {
      assert (front + rest)[i] == front[i] && (front + rest)[j] == front[j];
    }
  }

  lemma RestsPermute<T>(front: seq<T>, last: seq<T>, front': seq<T>, last': seq<T>)
    requires Permutation(front + last, front' + last') && Permutation(front, front')
    ensures Permutation(last, last')
  {
    assert multiset(front + last) == multiset(front) + multiset(last);
    assert multiset(front' + last') == multiset(front') + multiset(last');
    assert multiset(last) == multiset(front + last) - multiset(front);
    assert multiset(last') == multiset(front' + last') - multiset(front');
  }

  /** The last cycle and what precedes it hold the same events in both partitions. */
  lemma FrontsPermute(p: seq<seq<Event>>, q: seq<seq<Event>>)
    requires Cycles(p) && Cycles(q) && p != [] && |p| == |q| && |Final(p)| == |Final(q)|
    requires Permutation(Flatten(p), Flatten(q)) && InOrder(Flatten(p)) && InOrder(Flatten(q))
    ensures Permutation(Flatten(Front(p)), Flatten(Front(q))) && Permutation(Final(p), Final(q))
    ensures InOrder(Flatten(Front(p))) && InOrder(Flatten(Front(q)))
  {
    SortedTimesAgree(Flatten(p), Flatten(q));
    FrontTimes(p, q);
    assert Times(Final(p))[0] == Times(Final(q))[0];
    var t := Final(p)[0].time;
    FrontIsFilter(p, t);
    FrontIsFilter(q, t);
    FilterPermutation(BeforeTime(t), Flatten(p), Flatten(q));
    RestsPermute(Flatten(Front(p)), Final(p), Flatten(Front(q)), Final(q));
  }

  /** Two partitions of the same events, in whatever order, are the same cycles event for event. */
  lemma {:induction false} SameCycles(p: seq<seq<Event>>, q: seq<seq<Event>>)
    requires Cycles(p) && Cycles(q) && Permutation(Flatten(p), Flatten(q))
    requires InOrder(Flatten(p)) && InOrder(Flatten(q))
    ensures |p| == |q| && forall k | 0 <= k < |p| :: Permutation(p[k], q[k])
  {
    SortedTimesAgree(Flatten(p), Flatten(q));
    SameShape(p, q);
    if p != [] {
      FrontsPermute(p, q);
      SameCycles(Front(p), Front(q));
      forall k | 0 <= k < |p| ensures Permutation(p[k], q[k]) {
        if k < |p| - 1 { assert p[k] == Front(p)[k] && q[k] == Front(q)[k]; }
      }
    }
  }

  function AtTime(t: int): Event -> bool { (e: Event) => e.time == t }

  /** The simultaneous events of two lists come in the same order. */
  ghost predicate SameTies(xs: seq<Event>, ys: seq<Event>) {
    forall t: int :: Filter(AtTime(t), xs) == Filter(AtTime(t), ys)
  }

  /** Lists of the same times with the same ties are the same list. */
  lemma {:induction false} TiesDetermine(xs: seq<Event>, ys: seq<Event>)
    requires Times(xs) == Times(ys) && SameTies(xs, ys)
    ensures xs == ys
  {
    assert |Times(xs)| == |xs| && |Times(ys)| == |ys|;
    if xs != [] {
      var n := |xs| - 1;
      var x, y := xs[n], ys[n];
      assert x.time == Times(xs)[n] == Times(ys)[n] == y.time;
      LastTie(xs, x.time);
      LastTie(ys, x.time);
      assert Filter(AtTime(x.time), xs) == Filter(AtTime(x.time), ys);
      assert x == y;
      forall t: int ensures Filter(AtTime(t), xs[..n]) == Filter(AtTime(t), ys[..n]) {
        assert Filter(AtTime(t), xs) == Filter(AtTime(t), ys);
        LastTie(xs, t);
        LastTie(ys, t);
      }
      assert Times(xs[..n]) == Times(xs)[..n] && Times(ys[..n]) == Times(ys)[..n];
      TiesDetermine(xs[..n], ys[..n]);
      assert xs == xs[..n] + [x] && ys == ys[..n] + [y];
    }
  }

  lemma LastTie(xs: seq<Event>, t: int)
    requires xs != []
    ensures var n := |xs| - 1;
            && (xs[n].time == t ==>
                  Filter(AtTime(t), xs) != [] && Filter(AtTime(t), xs)[|Filter(AtTime(t), xs)| - 1] == xs[n]
                  && Filter(AtTime(t), xs)[..|Filter(AtTime(t), xs)| - 1] == Filter(AtTime(t), xs[..n]))
            && (xs[n].time != t ==> Filter(AtTime(t), xs) == Filter(AtTime(t), xs[..n]))
  {
  }

  /** The stable sort by time keeps the ties of its input. */
  lemma SortKeepsTies(events: seq<Event>)
    ensures SameTies(Sort(Earlier, events), events)
  {
    EarlierStrictWeak();
    forall t: int ensures Filter(AtTime(t), Sort(Earlier, events)) == Filter(AtTime(t), events) {
      SortStable(Earlier, AtTime(t), events);
    }
  }

  lemma TiesFollow(xs: seq<Event>, ys: seq<Event>, zs: seq<Event>)
    requires SameTies(xs, ys)
    ensures SameTies(xs, zs) <==> SameTies(ys, zs)
  {
    if SameTies(xs, zs) {
      forall t: int ensures Filter(AtTime(t), ys) == Filter(AtTime(t), zs) {
        assert Filter(AtTime(t), xs) == Filter(AtTime(t), ys) && Filter(AtTime(t), xs) == Filter(AtTime(t), zs);
      }
    }
    if SameTies(ys, zs) {
      forall t: int ensures Filter(AtTime(t), xs) == Filter(AtTime(t), zs) {
        assert Filter(AtTime(t), xs) == Filter(AtTime(t), ys) && Filter(AtTime(t), ys) == Filter(AtTime(t), zs);
      }
    }
  }

  /** Grouping any shuffle of the events of some time-ordered cycles gives back those cycles, event
      for event, and literally the same lists exactly when the shuffle keeps the order of simultaneous
      events, as it must when no two share a time. */
  lemma ShuffleRoundTrip(cycles: seq<seq<Event>>, shuffled: seq<Event>, groups: seq<seq<Event>>)
    requires Cycles(cycles) && InOrder(Flatten(cycles)) && Permutation(shuffled, Flatten(cycles))
    requires Cycles(groups) && Flatten(groups) == Sort(Earlier, shuffled)
    ensures |groups| == |cycles| && forall k | 0 <= k < |cycles| :: Permutation(groups[k], cycles[k])
    ensures groups == cycles <==> SameTies(shuffled, Flatten(cycles))
    ensures Ascending(Earlier, Flatten(cycles)) ==> groups == cycles
  {
    EarlierStrictWeak();
    SortPermutes(Earlier, shuffled);
    SortSorted(Earlier, shuffled);
    SameCycles(groups, cycles);
    SortKeepsTies(shuffled);
    TiesFollow(Flatten(groups), shuffled, Flatten(cycles));
    if SameTies(Flatten(groups), Flatten(cycles)) {
      SortedTimesAgree(Flatten(groups), Flatten(cycles));
      TiesDetermine(Flatten(groups), Flatten(cycles));
      CyclesAreUnique(groups, cycles);
    }
    if Ascending(Earlier, Flatten(cycles)) {
      SortAscending(Earlier, Flatten(groups), Flatten(cycles));
      CyclesAreUnique(groups, cycles);
    }
  }

  // ------------------------------------------------------------- the decision clock

  function Last(xs: seq<Event>): Option<Event> { if xs == [] then None else Some(xs[|xs| - 1]) }

  function OfKind(kind: string): Event -> bool { (e: Event) => e.kind == kind }

  /** `_latest_in_group`. */
  function LatestInGroup(group: seq<Event>, kind: string): Option<Event> { Last(Filter(OfKind(kind), group)) }

  /** In a time-ordered group it is the event of its kind received last. */
  lemma {:induction false} LatestInGroupIsLatest(group: seq<Event>, kind: string)
    requires InOrder(group)
    ensures LatestInGroup(group, kind).None? <==> forall i | 0 <= i < |group| :: group[i].kind != kind
    ensures LatestInGroup(group, kind).Some? ==>
              var e := LatestInGroup(group, kind).value;
              && e in group && e.kind == kind
              && forall i | 0 <= i < |group| && group[i].kind == kind :: group[i].time <= e.time
  {
    if group != [] {
      var n := |group| - 1;
      LatestInGroupIsLatest(group[..n], kind);
      assert group == group[..n] + [group[n]];
    }
  }

  function DecisionClock(latest: int, end: int): int {
    if end - latest <= CLOCK_SLACK then MaxInt(latest, end) else latest
  }

  /** The clock a group is judged by never precedes its data and never runs ahead of it by more than
      fifteen minutes; it is the requested end exactly when that lies in this window, and otherwise the data's. */
  lemma DecisionClockWindow(latest: int, end: int)
    ensures latest <= DecisionClock(latest, end) <= latest + 900_000_000
    ensures DecisionClock(latest, end) == end <==> latest <= end <= latest + 900_000_000
    ensures DecisionClock(latest, end) == end || DecisionClock(latest, end) == latest
  {
  }
}
