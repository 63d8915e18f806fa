/** When a binding depends on the feed order (src/trading/identification/binders.py:1096-1162). */
module FeedOrder {
  import opened Wrappers
  import opened Contracts
  import opened Ordering
  import opened Scoring
  import opened Search
  import opened Binders
  import opened Refusals

  /** Two desks over the same candidates in some order. */
  ghost predicate SameRequest(a: Desk, b: Desk) {
    && a.policy == b.policy && a.p1 == b.p1
    && Permutation(a.universe, b.universe)
  }

  /** A properly spaced structure: every admissible one but a zero-width butterfly. */
  ghost predicate Spaced(s: Structure, desk: Desk, legs: seq<Snapshot>) {
    Admissible(s, desk, legs) && !ZeroWidth(s, legs)
  }

  /** Three usable copies of one contract, in any order: the legs of a butterfly of width zero. */
  ghost predicate Copies(s: Structure, desk: Desk, legs: seq<Snapshot>) {
    && s.LongButterfly? && |legs| == 3
    && legs[0] != legs[1] && legs[1] != legs[2] && legs[0] != legs[2]
    && (forall i | 0 <= i < 3 :: legs[i] in UsableOf(desk.universe, s.side, desk.policy))
    && EvenlySpaced(legs) && Strike(legs[0]) == Strike(legs[1])
  }

  /** Every such triple is outranked by a properly spaced structure. */
  ghost predicate CopiesOutranked(s: Structure, desk: Desk)
    requires desk.Valid()
  {
    forall t: seq<Snapshot> | Copies(s, desk, t) :: Outranked(s, desk, t)
  }

  ghost predicate Outranked(s: Structure, desk: Desk, t: seq<Snapshot>)
    requires desk.Valid() && |t| == LegCount(s)
  {
    exists w :: Spaced(s, desk, w) && RowLess(RowOf(s, desk, w), RowOf(s, desk, t))
  }

  /** No three usable candidates of the side are one contract. */
  ghost predicate NoThreeCopies(side: OptionType, desk: Desk) {
    var pool := UsableOf(desk.universe, side, desk.policy);
    forall a, b, c | a in pool && b in pool && c in pool && a != b && b != c && a != c ::
      !(a.contract.strike == b.contract.strike == c.contract.strike
        && a.contract.expiry == b.contract.expiry == c.contract.expiry)
  }

  lemma CopiesAreOneContract(s: Structure, desk: Desk, t: seq<Snapshot>)
    requires Copies(s, desk, t)
    ensures !NoThreeCopies(s.side, desk)
  {
    assert t[0].contract.strike == t[1].contract.strike == t[2].contract.strike;
    assert t[0].contract.expiry == t[1].contract.expiry == t[2].contract.expiry;
  }

  /** Which holds outright for every other structure, and where no contract is listed three times. */
  lemma NothingToOutrank(s: Structure, desk: Desk)
    requires desk.Valid() && (s.LongButterfly? ==> NoThreeCopies(s.side, desk))
    ensures CopiesOutranked(s, desk)
  {
    if t :| Copies(s, desk, t) { CopiesAreOneContract(s, desk, t); }
  }

  lemma SpacedAnywhere(s: Structure, a: Desk, b: Desk, legs: seq<Snapshot>)
    requires SameRequest(a, b)
    ensures Spaced(s, a, legs) <==> Spaced(s, b, legs)
  {
    PermutationMembers(a.universe, b.universe);
  }

  lemma CopiesAnywhere(s: Structure, a: Desk, b: Desk, legs: seq<Snapshot>)
    requires SameRequest(a, b)
    ensures Copies(s, a, legs) <==> Copies(s, b, legs)
  {
    PermutationMembers(a.universe, b.universe);
  }

  lemma SameRequestRow(s: Structure, a: Desk, b: Desk, legs: seq<Snapshot>)
    requires a.Valid() && b.Valid() && SameRequest(a, b) && |legs| == LegCount(s)
    ensures RowOf(s, a, legs) == RowOf(s, b, legs)
  {
    PermutationMembers(a.universe, b.universe);
    forall c: Snapshot, range: DeltaRange, role: Role
      ensures LegScore(a, c, range, role) == LegScore(b, c, range, role)
    {
      CandidateScoreSameMembers(c, a.universe, b.universe, a.policy, range, a.p1, role);
    }
    assert RawScore(s, a, legs) == RawScore(s, b, legs);
  }

  lemma ZeroWidthIsCopies(s: Structure, desk: Desk, legs: seq<Snapshot>)
    requires DistinctSymbols(desk.universe) && Admissible(s, desk, legs) && ZeroWidth(s, legs)
    ensures Copies(s, desk, legs)
  {
    LegsDiffer(s, desk, legs, 0, 1);
    LegsDiffer(s, desk, legs, 1, 2);
    LegsDiffer(s, desk, legs, 0, 2);
  }

  /** Where copies are outranked the best structure is properly spaced, in every order of the feed. */
  lemma BestIsSpaced(s: Structure, a: Desk, b: Desk, x: seq<Snapshot>)
    requires a.Valid() && b.Valid() && SameRequest(a, b) && DistinctSymbols(b.universe)
    requires CopiesOutranked(s, a) && Best(s, b, x)
    ensures Spaced(s, a, x) && Spaced(s, b, x)
  {
    if ZeroWidth(s, x) {
      ZeroWidthIsCopies(s, b, x);
      CopiesAnywhere(s, a, b, x);
      assert Outranked(s, a, x);
      var w :| Spaced(s, a, w) && RowLess(RowOf(s, a, w), RowOf(s, a, x));
      SpacedAnywhere(s, a, b, w);
      SameRequestRow(s, a, b, w);
      SameRequestRow(s, a, b, x);
      assert false;
    }
    SpacedAnywhere(s, a, b, x);
  }

  lemma DistinctAnywhere(a: seq<Snapshot>, b: seq<Snapshot>)
    requires DistinctSymbols(a) && Permutation(a, b)
    ensures DistinctSymbols(b)
  {
    SymbolsPermutation(a, b);
    forall i, j | 0 <= i < j < |b| ensures b[i].Symbol() != b[j].Symbol() {
      if b[i].Symbol() == b[j].Symbol() {
        CountAtMostOne(a, b[i].Symbol());
        TwicePresent(Symbols(b), i, j);
      }
    }
  }

  lemma TwicePresent<T>(xs: seq<T>, i: nat, j: nat)
    requires i < j < |xs| && xs[i] == xs[j]
    ensures multiset(xs)[xs[i]] >= 2
  {
    assert xs == xs[..j] + [xs[j]] + xs[j + 1..];
    assert xs[i] in xs[..j];
  }

  /** Two best structures of a feed in two orders, both properly spaced, are one. */
  lemma SpacedBestUnique(s: Structure, a: Desk, b: Desk, x: seq<Snapshot>, y: seq<Snapshot>)
    requires a.Valid() && b.Valid() && SameRequest(a, b) && DistinctSymbols(a.universe)
    requires Best(s, a, x) && Best(s, b, y) && Spaced(s, b, x) && Spaced(s, a, y)
    ensures x == y && RowOf(s, a, x) == RowOf(s, b, y)
  {
    SameRequestRow(s, a, b, x);
    SameRequestRow(s, a, b, y);
    assert !RowLess(RowOf(s, a, y), RowOf(s, a, x)) && !RowLess(RowOf(s, b, x), RowOf(s, b, y));
    TiedRowsAreOne(s, a, x, y);
  }

  /** Over distinct symbols two structures tie in the sort key only when they are one. */
  lemma TiedRowsAreOne(s: Structure, desk: Desk, x: seq<Snapshot>, y: seq<Snapshot>)
    requires desk.Valid() && DistinctSymbols(desk.universe) && |x| == |y| == LegCount(s)
    requires forall i | 0 <= i < |x| :: x[i] in desk.universe && y[i] in desk.universe
    requires !RowLess(RowOf(s, desk, x), RowOf(s, desk, y)) && !RowLess(RowOf(s, desk, y), RowOf(s, desk, x))
    ensures x == y
  {
    SymbolsLessStrictTotal();
    assert Symbols(x) == Symbols(y);
    forall i | 0 <= i < |x| ensures x[i] == y[i] {
      assert Symbols(x)[i] == Symbols(y)[i];
      DistinctSymbolsDetermine(desk.universe, x[i], y[i]);
    }
  }

  /** With distinct symbols the optimum is one tuple, however the feed was ordered. */
  lemma BestUnique(s: Structure, a: Desk, b: Desk, x: seq<Snapshot>, y: seq<Snapshot>)
    requires a.Valid() && b.Valid() && SameRequest(a, b) && DistinctSymbols(a.universe)
    requires CopiesOutranked(s, a) && Best(s, a, x) && Best(s, b, y)
    ensures x == y && RowOf(s, a, x) == RowOf(s, b, y)
  {
    DistinctAnywhere(a.universe, b.universe);
    BestIsSpaced(s, a, a, x);
    BestIsSpaced(s, a, b, y);
    SpacedAnywhere(s, a, b, x);
    SpacedBestUnique(s, a, b, x, y);
  }

  // ------------------------------------------------------------------ the same answer

  lemma OutcomeNotUnbound(s: Structure, desk: Desk, all: seq<Snapshot>, legs: seq<Snapshot>)
    requires desk.Valid() && |legs| == LegCount(s)
    ensures !Outcome(s, desk, all, legs).Unbound?
  {
  }

  lemma SameOutcome(
    s: Structure, a: Desk, b: Desk, all: seq<Snapshot>, all': seq<Snapshot>, legs: seq<Snapshot>)
    requires a.Valid() && b.Valid() && |legs| == LegCount(s)
    requires RowOf(s, a, legs) == RowOf(s, b, legs) && Permutation(all, all')
    ensures Outcome(s, a, all, legs) == Outcome(s, b, all', legs)
  {
    RejectedSameMembers(all, all', Symbols(Presented(s, legs)));
  }

  lemma BoundFeedOrderIrrelevant(
    s: Structure, a: Desk, b: Desk, all: seq<Snapshot>, all': seq<Snapshot>, x: Binding, y: Binding)
    requires a.Valid() && b.Valid() && SameRequest(a, b) && DistinctSymbols(a.universe)
    requires CopiesOutranked(s, a)
    requires Permutation(all, all')
    requires Binds(s, a, all, x) && exists legs :: Admissible(s, a, legs)
    requires Binds(s, b, all', y) && exists legs :: Admissible(s, b, legs)
    ensures x == y && !x.Unbound?
  {
    var m := BestOf(s, a, all, x);
    var n := BestOf(s, b, all', y);
    BestUnique(s, a, b, m, n);
    SameRequestRow(s, a, b, m);
    SameOutcome(s, a, b, all, all', m);
    OutcomeNotUnbound(s, a, all, m);
  }

  /** Where copies are outranked, something binds exactly when something properly spaced does. */
  lemma SomethingToBind(s: Structure, a: Desk, b: Desk)
    requires a.Valid() && b.Valid() && SameRequest(a, b) && DistinctSymbols(a.universe) && CopiesOutranked(s, a)
    ensures (exists legs :: Admissible(s, b, legs)) <==> (exists legs :: Spaced(s, b, legs))
  {
    DistinctAnywhere(a.universe, b.universe);
    if t :| Admissible(s, b, t) {
      if ZeroWidth(s, t) {
        ZeroWidthIsCopies(s, b, t);
        CopiesAnywhere(s, a, b, t);
        assert Outranked(s, a, t);
        var w :| Spaced(s, a, w) && RowLess(RowOf(s, a, w), RowOf(s, a, t));
        SpacedAnywhere(s, a, b, w);
      } else {
        assert Spaced(s, b, t);
      }
    }
  }

  /** The feed order never changes what is bound. When nothing binds, only the reported reason
      may follow the feed. */
  lemma FeedOrderIrrelevant(
    s: Structure, a: Desk, b: Desk, all: seq<Snapshot>, all': seq<Snapshot>, x: Binding, y: Binding)
    requires a.Valid() && b.Valid() && SameRequest(a, b) && DistinctSymbols(a.universe)
    requires CopiesOutranked(s, a)
    requires Permutation(all, all')
    requires Binds(s, a, all, x) && Binds(s, b, all', y)
    ensures x.Unbound? <==> y.Unbound?
    ensures !x.Unbound? ==> x == y
    ensures x.Unbound? ==> x.rejected == y.rejected
    ensures x.Unbound? && OneReason(a.universe, a.policy) ==> x == y
  {
    SomethingToBind(s, a, a);
    SomethingToBind(s, a, b);
    if legs :| Spaced(s, a, legs) { SpacedAnywhere(s, a, b, legs); }
    if legs :| Spaced(s, b, legs) { SpacedAnywhere(s, a, b, legs); }
    if exists legs :: Admissible(s, a, legs) {
      BoundFeedOrderIrrelevant(s, a, b, all, all', x, y);
    } else {
      RejectedSameMembers(all, all', []);
      if OneReason(a.universe, a.policy) { OneReasonIsReported(a.universe, b.universe, a.policy); }
    }
  }

  // ------------------------------------------------------------- the reported reason

  /** All refused candidates are refused for one reason. */
  ghost predicate OneReason(items: seq<Snapshot>, policy: Policy) {
    forall c, d | c in items && d in items && CommonReason(c, policy).Some? && CommonReason(d, policy).Some? ::
      CommonReason(c, policy) == CommonReason(d, policy)
  }

  /** The first reason is some candidate's, or the stand-in when nothing is refused. */
  lemma {:induction false} FirstReasonMeans(items: seq<Snapshot>, policy: Policy)
    ensures || (exists c :: c in items && CommonReason(c, policy) == Some(FirstReason(items, policy)))
            || (FirstReason(items, policy) == InstrumentUnknown
                && forall c | c in items :: CommonReason(c, policy).None?)
  {
    if items != [] {
      FirstReasonMeans(items[1..], policy);
      assert items == [items[0]] + items[1..];
      assert items[0] in items && forall c | c in items[1..] :: c in items;
    }
  }

  lemma OneReasonIsReported(a: seq<Snapshot>, b: seq<Snapshot>, policy: Policy)
    requires Permutation(a, b) && OneReason(a, policy)
    ensures DominantReason(a, policy) == DominantReason(b, policy)
  {
    PermutationMembers(a, b);
    FirstReasonMeans(a, policy);
    FirstReasonMeans(b, policy);
  }

  /** Every candidate refused for a reason can be the one reported, by leading the feed. */
  lemma AnyReasonCanLead(a: seq<Snapshot>, policy: Policy, d: Snapshot) returns (b: seq<Snapshot>)
    requires d in a && CommonReason(d, policy).Some?
    ensures Permutation(a, b) && DominantReason(b, policy) == CommonReason(d, policy).value
  {
    var j :| 0 <= j < |a| && a[j] == d;
    RemoveAt(a, j);
    b := [d] + (a[..j] + a[j + 1..]);
  }

  /** When nothing binds, the reported reason ignores the feed order exactly when all refused candidates
      are refused for one reason. */
  lemma ReasonOrderFreeExactly(a: seq<Snapshot>, policy: Policy)
    ensures (forall b | Permutation(a, b) :: DominantReason(b, policy) == DominantReason(a, policy))
       <==> OneReason(a, policy)
  {
    if OneReason(a, policy) {
      forall b | Permutation(a, b) ensures DominantReason(b, policy) == DominantReason(a, policy) {
        OneReasonIsReported(a, b, policy);
      }
    } else {
      var c, d :| c in a && d in a && CommonReason(c, policy).Some? && CommonReason(d, policy).Some?
                  && CommonReason(c, policy) != CommonReason(d, policy);
      var x := AnyReasonCanLead(a, policy, c);
      var y := AnyReasonCanLead(a, policy, d);
    }
  }

  // ----------------------------------------------------------------- whole requests

  /** Two requests over the same feed in some order. */
  ghost predicate Reordered(r: Request, q: Request) {
    q == r.(all := q.all) && Permutation(r.all, q.all)
  }

  lemma ReorderedDesks(r: Request, q: Request)
    requires Reordered(r, q) && DistinctSymbols(r.all)
    ensures SameRequest(r.Desk(), q.Desk()) && DistinctSymbols(r.Desk().universe)
    ensures MasterAbsent(r) <==> MasterAbsent(q)
  {
    if r.master.Some? {
      FilterPermutation((c: Snapshot) => c.Symbol() in r.master.value, r.all, q.all);
      FilterDistinct((c: Snapshot) => c.Symbol() in r.master.value, r.all);
    }
    PermutationMembers(r.Desk().universe, q.Desk().universe);
  }

  lemma ReorderedPlans(family: Family, r: Request, q: Request)
    requires Reordered(r, q) && DistinctSymbols(r.all)
    ensures Plan(family, r).Ok? || Plan(family, q).Ok? ==> Plan(family, r) == Plan(family, q)
    ensures Plan(family, r).Ok? ==>
              (Plan(family, r).value.LongButterfly? <==> family.LongButterflyFamily?)
  {
    ReorderedDesks(r, q);
  }

  lemma ReorderedAnswers(
    plan: Result<Structure, Reason>, plan': Result<Structure, Reason>, r: Request, q: Request,
    x: Binding, y: Binding)
    requires r.Valid() && q.Valid() && Reordered(r, q) && DistinctSymbols(r.all)
    requires plan.Ok? || plan'.Ok? ==> plan == plan'
    requires plan.Ok? ==> CopiesOutranked(plan.value, r.Desk())
    requires Answers(plan, r, x) && Answers(plan', q, y)
    ensures x.Unbound? <==> y.Unbound?
    ensures !x.Unbound? ==> x == y
    ensures x.Unbound? ==> x.rejected == y.rejected
  {
    if plan.Ok? {
      ReorderedDesks(r, q);
      FeedOrderIrrelevant(plan.value, r.Desk(), q.Desk(), r.all, q.all, x, y);
    } else {
      RejectedSameMembers(r.all, q.all, []);
    }
  }

  /** A request's answer does not depend on the order of its feed: the binding is the same, and
      an unbound request rejects the same symbols. */
  lemma BindingIgnoresFeedOrder(family: Family, r: Request, q: Request, x: Binding, y: Binding)
    requires r.Valid() && q.Valid() && Reordered(r, q) && DistinctSymbols(r.all)
    requires Plan(family, r).Ok? ==> CopiesOutranked(Plan(family, r).value, r.Desk())
    requires Honours(family, r, x) && Honours(family, q, y)
    ensures x.Unbound? <==> y.Unbound?
    ensures !x.Unbound? ==> x == y
    ensures x.Unbound? ==> x.rejected == y.rejected
  {
    ReorderedPlans(family, r, q);
    ReorderedAnswers(Plan(family, r), Plan(family, q), r, q, x, y);
  }

  // ------------------------------------------------------------- when the order matters

  /** The feed with some of its candidates moved to the front. */
  function Front(t: seq<Snapshot>, universe: seq<Snapshot>): seq<Snapshot> {
    t + Filter((c: Snapshot) => c !in t, universe)
  }

  lemma {:induction false} PresentOnce(items: seq<Snapshot>, c: Snapshot)
    requires DistinctSymbols(items)
    ensures multiset(items)[c] == if c in items then 1 else 0
  {
    if items != [] {
      var n := |items| - 1;
      PresentOnce(items[..n], c);
      assert items == items[..n] + [items[n]];
    }
  }

  lemma FrontPermutes(t: seq<Snapshot>, universe: seq<Snapshot>)
    requires DistinctSymbols(universe) && DistinctSymbols(t) && forall c | c in t :: c in universe
    ensures Permutation(universe, Front(t, universe))
  {
    var others := (c: Snapshot) => c !in t;
    forall c: Snapshot ensures multiset(Front(t, universe))[c] == multiset(universe)[c] {
      FilterCount(others, universe, c);
      PresentOnce(universe, c);
      PresentOnce(t, c);
    }
  }

  function Fronted(t: seq<Snapshot>, desk: Desk): Desk { desk.(universe := Front(t, desk.universe)) }

  /** Usable candidates moved to the front of the feed lead the pool. */
  lemma FrontLeadsThePool(s: Structure, desk: Desk, t: seq<Snapshot>)
    requires s.LongButterfly? && forall c | c in t :: c in UsableOf(desk.universe, s.side, desk.policy)
    ensures t <= UsableOf(Front(t, desk.universe), s.side, desk.policy)
  {
    var p := (c: Snapshot) => OfSide(c, s.side) && Usable(c, desk.policy);
    FilterAppend(p, t, Filter((c: Snapshot) => c !in t, desk.universe));
    FilterAll(p, t);
  }

  lemma CopiesAreDistinct(s: Structure, desk: Desk, t: seq<Snapshot>)
    requires Copies(s, desk, t) && DistinctSymbols(desk.universe)
    ensures DistinctSymbols(t) && DistinctSymbols([t[2], t[1], t[0]]) && Copies(s, desk, [t[2], t[1], t[0]])
  {
    forall i, j | 0 <= i < 3 && 0 <= j < 3 && t[i].Symbol() == t[j].Symbol() ensures t[i] == t[j] {
      DistinctSymbolsDetermine(desk.universe, t[i], t[j]);
    }
  }

  /** Copies at the front of the feed are a structure of it. */
  lemma FrontBinds(s: Structure, desk: Desk, t: seq<Snapshot>)
    requires Copies(s, desk, t) && DistinctSymbols(desk.universe)
    ensures SameRequest(desk, Fronted(t, desk)) && Admissible(s, Fronted(t, desk), t)
  {
    CopiesAreDistinct(s, desk, t);
    FrontPermutes(t, desk.universe);
    FrontLeadsThePool(s, desk, t);
    LeadersAreAdmissible(s.side, Fronted(t, desk), t);
  }

  lemma LeadersAreAdmissible(side: OptionType, desk: Desk, t: seq<Snapshot>)
    requires |t| == 3 && t <= UsableOf(desk.universe, side, desk.policy)
    requires EvenlySpaced(t) && Strike(t[0]) == Strike(t[1])
    ensures Admissible(LongButterfly(side), desk, t)
  {
    var pool := UsableOf(desk.universe, side, desk.policy);
    assert t == [pool[0], pool[1], pool[2]];
    ButterflyAdmissible(desk, side, t);
  }

  /** Put at the front the other way round, they are none. */
  lemma ReversedFrontDoesNot(s: Structure, desk: Desk, t: seq<Snapshot>)
    requires Copies(s, desk, t) && DistinctSymbols(desk.universe)
    ensures !Admissible(s, Fronted([t[2], t[1], t[0]], desk), t)
  {
    var back := [t[2], t[1], t[0]];
    CopiesAreDistinct(s, desk, t);
    FrontPermutes(back, desk.universe);
    DistinctAnywhere(desk.universe, Front(back, desk.universe));
    FrontLeadsThePool(s, desk, back);
    var pool := UsableOf(Front(back, desk.universe), s.side, desk.policy);
    FilterDistinct((c: Snapshot) => OfSide(c, s.side) && Usable(c, desk.policy), Front(back, desk.universe));
    assert pool[0] == t[2] && pool[2] == t[0];
  }

  /** Among finitely many rows some row is beaten by none. */
  lemma {:induction false} Unbeaten(s: Structure, desk: Desk, tuples: set<seq<Snapshot>>) returns (m: seq<Snapshot>)
    requires desk.Valid() && tuples != {} && forall t | t in tuples :: |t| == LegCount(s)
    ensures m in tuples && forall t | t in tuples :: !RowLess(RowOf(s, desk, t), RowOf(s, desk, m))
    decreases |tuples|
  {
    RowLessStrictWeak();
    m :| m in tuples;
    if tuples != {m} {
      var rest := Unbeaten(s, desk, tuples - {m});
      if RowLess(RowOf(s, desk, rest), RowOf(s, desk, m)) { m := rest; }
    }
  }

  /** A butterfly search always has an answer. */
  lemma Answer(s: Structure, desk: Desk, all: seq<Snapshot>) returns (b: Binding)
    requires desk.Valid() && s.LongButterfly?
    ensures Binds(s, desk, all, b)
  {
    if t :| Admissible(s, desk, t) {
      var tuples := set x, y, z | x in desk.universe && y in desk.universe && z in desk.universe
                                  && Admissible(s, desk, [x, y, z]) :: [x, y, z];
      forall legs ensures legs in tuples <==> Admissible(s, desk, legs) {
        if Admissible(s, desk, legs) { assert legs == [legs[0], legs[1], legs[2]]; }
      }
      var best := Unbeaten(s, desk, tuples);
      assert Best(s, desk, best);
      b := Outcome(s, desk, all, best);
    } else {
      b := Unbound(DominantReason(desk.universe, desk.policy), Rejected(all, []));
    }
  }

  ghost predicate Agree(x: Binding, y: Binding) {
    if x.Unbound? then y.Unbound? && x.rejected == y.rejected else x == y
  }

  /** Any two orders of the feed get the same answer. */
  ghost predicate OrderFree(s: Structure, desk: Desk, all: seq<Snapshot>)
    requires desk.Valid()
  {
    forall a: Desk, b: Desk, x: Binding, y: Binding |
      SameRequest(desk, a) && SameRequest(desk, b) && Binds(s, a, all, x) && Binds(s, b, all, y) :: Agree(x, y)
  }

  /** Copies that nothing outranks win as soon as they lead the feed. */
  lemma CopiesWin(s: Structure, desk: Desk, t: seq<Snapshot>, best: seq<Snapshot>)
    requires desk.Valid() && DistinctSymbols(desk.universe) && Copies(s, desk, t) && !Outranked(s, desk, t)
    requires SameRequest(desk, Fronted(t, desk)) && Admissible(s, Fronted(t, desk), t)
    requires Best(s, Fronted(t, desk), best)
    ensures Copies(s, desk, best)
  {
    var a := Fronted(t, desk);
    DistinctAnywhere(desk.universe, a.universe);
    if ZeroWidth(s, best) {
      ZeroWidthIsCopies(s, a, best);
      CopiesAnywhere(s, desk, a, best);
    } else {
      assert Spaced(s, a, best);
      SpacedAnywhere(s, desk, a, best);
      SameRequestRow(s, desk, a, best);
      SameRequestRow(s, desk, a, t);
      TiedRowsAreOne(s, a, best, t);
      assert false;
    }
  }

  lemma BoundOutcome(s: Structure, desk: Desk, all: seq<Snapshot>, legs: seq<Snapshot>)
    requires desk.Valid() && s.LongButterfly? && BooksValid(desk.universe) && Admissible(s, desk, legs)
    ensures Outcome(s, desk, all, legs).Bound? && Outcome(s, desk, all, legs).legs == legs
  {
    ScoreBounds(s, desk, legs);
  }

  lemma BoundLegs(s: Structure, desk: Desk, all: seq<Snapshot>, b: Binding) returns (best: seq<Snapshot>)
    requires desk.Valid() && s.LongButterfly? && BooksValid(desk.universe) && Binds(s, desk, all, b)
    requires exists legs :: Admissible(s, desk, legs)
    ensures Best(s, desk, best) && b.Bound? && b.legs == best
  {
    best := BestOf(s, desk, all, b);
    BoundOutcome(s, desk, all, best);
  }

  /** The order of the feed that puts some copies first binds copies. */
  lemma CopiesFirst(s: Structure, desk: Desk, all: seq<Snapshot>, t: seq<Snapshot>)
    returns (a: Desk, x: Binding)
    requires desk.Valid() && BooksValid(desk.universe) && DistinctSymbols(desk.universe)
    requires Copies(s, desk, t) && !Outranked(s, desk, t)
    ensures SameRequest(desk, a) && Binds(s, a, all, x) && x.Bound? && Copies(s, desk, x.legs)
  {
    a := Fronted(t, desk);
    FrontBinds(s, desk, t);
    PermutationMembers(desk.universe, a.universe);
    x := Answer(s, a, all);
    var m := BoundLegs(s, a, all, x);
    CopiesWin(s, desk, t, m);
  }

  /** And no copies are bound in every order. */
  lemma CopiesReversed(s: Structure, desk: Desk, all: seq<Snapshot>, m: seq<Snapshot>)
    returns (b: Desk, y: Binding)
    requires desk.Valid() && BooksValid(desk.universe) && DistinctSymbols(desk.universe) && Copies(s, desk, m)
    ensures SameRequest(desk, b) && Binds(s, b, all, y) && y.Bound? && y.legs != m
  {
    CopiesAreDistinct(s, desk, m);
    var back := [m[2], m[1], m[0]];
    b := Fronted(back, desk);
    FrontBinds(s, desk, back);
    PermutationMembers(desk.universe, b.universe);
    ReversedFrontDoesNot(s, desk, m);
    y := Answer(s, b, all);
    var n := BoundLegs(s, b, all, y);
  }

  /** So copies that nothing outranks are bound in one order of the feed and not in another. */
  lemma CopiesFollowTheFeed(s: Structure, desk: Desk, all: seq<Snapshot>, t: seq<Snapshot>)
    requires desk.Valid() && BooksValid(desk.universe) && DistinctSymbols(desk.universe)
    requires Copies(s, desk, t) && !Outranked(s, desk, t)
    ensures !OrderFree(s, desk, all)
  {
    var a, x := CopiesFirst(s, desk, all, t);
    var b, y := CopiesReversed(s, desk, all, x.legs);
    TwoAnswers(s, desk, all, a, b, x, y);
  }

  lemma TwoAnswers(s: Structure, desk: Desk, all: seq<Snapshot>, a: Desk, b: Desk, x: Binding, y: Binding)
    requires desk.Valid() && SameRequest(desk, a) && SameRequest(desk, b)
    requires Binds(s, a, all, x) && Binds(s, b, all, y) && x.Bound? && y.Bound? && x.legs != y.legs
    ensures !OrderFree(s, desk, all)
  {
    assert !Agree(x, y);
  }

  lemma AnswersAgree(s: Structure, desk: Desk, all: seq<Snapshot>, a: Desk, b: Desk, x: Binding, y: Binding)
    requires desk.Valid() && DistinctSymbols(desk.universe) && CopiesOutranked(s, desk)
    requires SameRequest(desk, a) && SameRequest(desk, b) && Binds(s, a, all, x) && Binds(s, b, all, y)
    ensures Agree(x, y)
  {
    DistinctAnywhere(desk.universe, a.universe);
    OutrankedAnywhere(s, desk, a);
    FeedOrderIrrelevant(s, a, b, all, all, x, y);
  }

  lemma OutrankedMeansOrderFree(s: Structure, desk: Desk, all: seq<Snapshot>)
    requires desk.Valid() && DistinctSymbols(desk.universe) && CopiesOutranked(s, desk)
    ensures OrderFree(s, desk, all)
  {
    forall a: Desk, b: Desk, x: Binding, y: Binding |
      SameRequest(desk, a) && SameRequest(desk, b) && Binds(s, a, all, x) && Binds(s, b, all, y)
      ensures Agree(x, y)
    {
      AnswersAgree(s, desk, all, a, b, x, y);
    }
  }

  /** Exactly then: a search ignores the order of its feed if and only if properly spaced structures
      outrank every triple of copies. */
  lemma OrderFreeExactly(s: Structure, desk: Desk, all: seq<Snapshot>)
    requires desk.Valid() && BooksValid(desk.universe) && DistinctSymbols(desk.universe)
    ensures OrderFree(s, desk, all) <==> CopiesOutranked(s, desk)
  {
    if CopiesOutranked(s, desk) {
      OutrankedMeansOrderFree(s, desk, all);
    } else {
      var t: seq<Snapshot> :| Copies(s, desk, t) && !Outranked(s, desk, t);
      CopiesFollowTheFeed(s, desk, all, t);
    }
  }

  lemma OutrankedAnywhere(s: Structure, a: Desk, b: Desk)
    requires a.Valid() && b.Valid() && SameRequest(a, b) && CopiesOutranked(s, a)
    ensures CopiesOutranked(s, b)
  {
    forall t: seq<Snapshot> | Copies(s, b, t) ensures Outranked(s, b, t) {
      CopiesAnywhere(s, a, b, t);
      assert Outranked(s, a, t);
      var w :| Spaced(s, a, w) && RowLess(RowOf(s, a, w), RowOf(s, a, t));
      SpacedAnywhere(s, a, b, w);
      SameRequestRow(s, a, b, w);
      SameRequestRow(s, a, b, t);
    }
  }

  // ------------------------------------------------------------------ a feed of copies

  lemma OnlyCopies(side: OptionType, desk: Desk, a: Snapshot, b: Snapshot, c: Snapshot, legs: seq<Snapshot>)
    requires desk.universe == [a, b, c] && DistinctSymbols([a, b, c])
    requires forall x | x in desk.universe :: Usable(x, desk.policy) && OfSide(x, side)
    requires Strike(a) == Strike(b) == Strike(c) && EvenlySpaced([a, b, c])
    ensures Admissible(LongButterfly(side), desk, legs) <==> legs == [a, b, c]
  {
    var p := (x: Snapshot) => OfSide(x, side) && Usable(x, desk.policy);
    FilterAll(p, desk.universe);
    assert UsableOf(desk.universe, side, desk.policy) == [a, b, c];
    if Admissible(LongButterfly(side), desk, legs) {
      assert legs[0] in desk.universe && legs[1] in desk.universe;
    }
    if legs == [a, b, c] {
      var pool := UsableOf(desk.universe, side, desk.policy);
      assert legs == [pool[0], pool[1], pool[2]];
      ButterflyAdmissible(desk, side, legs);
    }
  }

  /** The binding is the feed as it came. */
  lemma CopiesBindInOrder(
    side: OptionType, desk: Desk, all: seq<Snapshot>, a: Snapshot, b: Snapshot, c: Snapshot, x: Binding)
    requires desk.Valid() && BooksValid(desk.universe) && Binds(LongButterfly(side), desk, all, x)
    requires desk.universe == [a, b, c] && DistinctSymbols([a, b, c])
    requires forall x | x in desk.universe :: Usable(x, desk.policy) && OfSide(x, side)
    requires Strike(a) == Strike(b) == Strike(c) && EvenlySpaced([a, b, c])
    ensures x.Bound? && x.legs == [a, b, c]
  {
    forall legs ensures Admissible(LongButterfly(side), desk, legs) <==> legs == [a, b, c] {
      OnlyCopies(side, desk, a, b, c, legs);
    }
    assert Admissible(LongButterfly(side), desk, [a, b, c]);
    var best := BoundLegs(LongButterfly(side), desk, all, x);
  }

  lemma QuotedCopies(side: OptionType, a: string, b: string, c: string, strike: real)
    requires a != b && b != c && a != c
    ensures var feed := [Quoted(a, side, strike), Quoted(b, side, strike), Quoted(c, side, strike)];
            && DistinctSymbols(feed) && BooksValid(feed) && EvenlySpaced(feed)
            && Strike(feed[0]) == Strike(feed[1]) == Strike(feed[2])
            && forall x | x in feed :: Usable(x, AnyPolicy()) && OfSide(x, side)
  {
    QuotedIsUsable(a, side, strike);
    QuotedIsUsable(b, side, strike);
    QuotedIsUsable(c, side, strike);
  }

  /** Three symbols of one contract bind in the order they are listed, so reversing the feed reverses
      the binding. */
  lemma CopiedFeedBindsBothWays(side: OptionType, a: string, b: string, c: string, strike: real, x: Binding, y: Binding)
    requires a != b && b != c && a != c
    requires var p, q, r := Quoted(a, side, strike), Quoted(b, side, strike), Quoted(c, side, strike);
             && Binds(LongButterfly(side), Desk([p, q, r], AnyPolicy(), None), [p, q, r], x)
             && Binds(LongButterfly(side), Desk([r, q, p], AnyPolicy(), None), [r, q, p], y)
    ensures x.Bound? && y.Bound? && x.legs != y.legs
  {
    var p, q, r := Quoted(a, side, strike), Quoted(b, side, strike), Quoted(c, side, strike);
    QuotedCopies(side, a, b, c, strike);
    QuotedCopies(side, c, b, a, strike);
    CopiesBindInOrder(side, Desk([p, q, r], AnyPolicy(), None), [p, q, r], p, q, r, x);
    CopiesBindInOrder(side, Desk([r, q, p], AnyPolicy(), None), [r, q, p], r, q, p, y);
    assert x.legs[0].Symbol() == a && y.legs[0].Symbol() == c;
  }
}
