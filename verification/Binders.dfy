/** The binders' loops (src/trading/identification/binders.py), each proved to collect exactly
    the admissible tuples, and the shared sort-and-take-the-head. */
module Binders {
  import opened Wrappers
  import opened Contracts
  import opened Ordering
  import opened Scoring
  import opened Search
  import opened Enumeration

  // --------------------------------------------------------------- arrangements

  predicate StrikeLess(a: Snapshot, b: Snapshot) { Strike(a) < Strike(b) }

  /** `sorted((a, b), key=strike)`. */
  function ByStrikePair(a: Snapshot, b: Snapshot): (Snapshot, Snapshot) {
    if StrikeLess(b, a) then (b, a) else (a, b)
  }

  /** `sorted((a, b, c), key=strike)`. */
  function ByStrike(chosen: seq<Snapshot>): (sorted: seq<Snapshot>)
    ensures |sorted| == |chosen|
  {
    SortPermutes(StrikeLess, chosen);
    Sort(StrikeLess, chosen)
  }

  function ArrangeDebit(long: Snapshot, short: Snapshot, side: OptionType, policy: Policy)
    : Option<seq<Snapshot>>
  {
    if ValidDebitPair(long, short, side, policy) then Some([long, short]) else None
  }

  function ArrangeVolatility(put: Snapshot, call: Snapshot, sameStrike: bool): Option<seq<Snapshot>> {
    if !Struck(put) || !Struck(call) then None
    else if sameStrike && Strike(put) != Strike(call) then None
    else if !sameStrike && Strike(put) >= Strike(call) then None
    else if !SameExpiry([put, call]) then None
    else Some([put, call])
  }

  function ArrangeCredit(
    first: Snapshot, second: Snapshot, side: OptionType, policy: Policy, cap: Option<real>)
    : Option<seq<Snapshot>>
  {
    if first.contract.expiry != second.contract.expiry then None
    else if !Struck(first) || !Struck(second) || Strike(first) == Strike(second) then None
    else
      var inOrder := if side.Put? then Strike(first) < Strike(second) else Strike(first) > Strike(second);
      var long, short := if inOrder then first else second, if inOrder then second else first;
      if ValidCreditPair(long, short, side, policy, cap) then Some([long, short]) else None
  }

  function ArrangeButterfly(a: Snapshot, b: Snapshot, c: Snapshot): Option<seq<Snapshot>> {
    var legs := ByStrike([a, b, c]);
    if EvenlySpaced(legs) then Some(legs) else None
  }

  predicate WingsTest(s: Structure, lp: Snapshot, sp: Snapshot, sc: Snapshot, lc: Snapshot) {
    && Struck(lp) && Struck(sp) && Struck(sc) && Struck(lc)
    && (if s.IronCondor? then Strike(lp) < Strike(sp) < Strike(sc) < Strike(lc)
        else Strike(lp) < Strike(sp) == Strike(sc) < Strike(lc))
    && SameExpiry([lp, sp, sc, lc])
  }

  function ArrangeWings(s: Structure, p: Snapshot, q: Snapshot, c: Snapshot, d: Snapshot)
    : Option<seq<Snapshot>>
  {
    var (lp, sp) := ByStrikePair(p, q);
    var (sc, lc) := ByStrikePair(c, d);
    if WingsTest(s, lp, sp, sc, lc) then Some([lp, sp, sc, lc]) else None
  }

  function DebitArranger(side: OptionType, policy: Policy): (Snapshot, Snapshot) -> Option<seq<Snapshot>> {
    (a, b) => ArrangeDebit(a, b, side, policy)
  }

  function VolatilityArranger(sameStrike: bool): (Snapshot, Snapshot) -> Option<seq<Snapshot>> {
    (a, b) => ArrangeVolatility(a, b, sameStrike)
  }

  function CreditArranger(side: OptionType, policy: Policy, cap: Option<real>)
    : (Snapshot, Snapshot) -> Option<seq<Snapshot>>
  {
    (a, b) => ArrangeCredit(a, b, side, policy, cap)
  }

  function ButterflyArranger(): (Snapshot, Snapshot, Snapshot) -> Option<seq<Snapshot>> {
    (a, b, c) => ArrangeButterfly(a, b, c)
  }

  function WingsArranger(s: Structure)
    : (Snapshot, Snapshot, Snapshot, Snapshot) -> Option<seq<Snapshot>>
  {
    (a, b, c, d) => ArrangeWings(s, a, b, c, d)
  }

  // ------------------------------------------------------------- candidate pools

  function LongsOf(desk: Desk, side: OptionType): (pool: seq<Snapshot>)
    ensures forall c :: c in pool <==>
      c in desk.universe && OfSide(c, side) && Usable(c, desk.policy) && LongDeltaOk(c, desk.policy)
  {
    FilterMembers((c: Snapshot) => LongDeltaOk(c, desk.policy), UsableOf(desk.universe, side, desk.policy));
    Filter((c: Snapshot) => LongDeltaOk(c, desk.policy), UsableOf(desk.universe, side, desk.policy))
  }

  function ShortsOf(desk: Desk, side: OptionType): (pool: seq<Snapshot>)
    ensures forall c :: c in pool <==>
      c in desk.universe && OfSide(c, side) && Usable(c, desk.policy) && ShortDeltaOk(c, desk.policy)
  {
    FilterMembers((c: Snapshot) => ShortDeltaOk(c, desk.policy), UsableOf(desk.universe, side, desk.policy));
    Filter((c: Snapshot) => ShortDeltaOk(c, desk.policy), UsableOf(desk.universe, side, desk.policy))
  }

  // ------------------------------------------------------------------- searches

  /** What the loops promise about the choices of one tuple: some exist exactly when the tuple is
      admissible, and over distinct symbols there is only one. */
  ghost predicate ChosenOnce<P(!new)>(s: Structure, desk: Desk, t: seq<Snapshot>, positions: set<P>) {
    && (positions != {} <==> Admissible(s, desk, t))
    && (DistinctSymbols(desk.universe) ==> forall p, q | p in positions && q in positions :: p == q)
  }

  /** A tuple collected as often as it has choices is collected when it is admissible. */
  lemma Collects<P(!new)>(s: Structure, desk: Desk, found: seq<seq<Snapshot>>, t: seq<Snapshot>, positions: set<P>)
    requires multiset(found)[t] == |positions| && ChosenOnce(s, desk, t, positions)
    ensures t in found <==> Admissible(s, desk, t)
    ensures DistinctSymbols(desk.universe) ==> multiset(found)[t] == if Admissible(s, desk, t) then 1 else 0
  {
    FoundWhen(found, t, positions);
  }

  lemma UsableDistinct(desk: Desk, side: OptionType)
    requires DistinctSymbols(desk.universe)
    ensures DistinctSymbols(UsableOf(desk.universe, side, desk.policy))
    ensures DistinctSymbols(LongsOf(desk, side)) && DistinctSymbols(ShortsOf(desk, side))
  {
    var pool := UsableOf(desk.universe, side, desk.policy);
    FilterDistinct((c: Snapshot) => OfSide(c, side) && Usable(c, desk.policy), desk.universe);
    FilterDistinct((c: Snapshot) => LongDeltaOk(c, desk.policy), pool);
    FilterDistinct((c: Snapshot) => ShortDeltaOk(c, desk.policy), pool);
  }

  lemma DebitAdmissible(desk: Desk, side: OptionType, a: Snapshot, b: Snapshot)
    ensures Admissible(DebitSpread(side), desk, [a, b]) <==>
              && a in LongsOf(desk, side) && b in ShortsOf(desk, side)
              && DebitArranger(side, desk.policy)(a, b) == Some([a, b])
  {
    assert [a, b][0] == a && [a, b][1] == b;
  }

  lemma DebitFrom(desk: Desk, side: OptionType, t: seq<Snapshot>, p: (int, int))
    requires p in ProductPositions(LongsOf(desk, side), ShortsOf(desk, side), DebitArranger(side, desk.policy), t)
    ensures Admissible(DebitSpread(side), desk, t)
    ensures LongsOf(desk, side)[p.0] == t[0] && ShortsOf(desk, side)[p.1] == t[1]
  {
    DebitAdmissible(desk, side, LongsOf(desk, side)[p.0], ShortsOf(desk, side)[p.1]);
  }

  lemma DebitFound(desk: Desk, side: OptionType, t: seq<Snapshot>)
    requires Admissible(DebitSpread(side), desk, t)
    ensures ProductPositions(LongsOf(desk, side), ShortsOf(desk, side), DebitArranger(side, desk.policy), t) != {}
  {
    var longs, shorts := LongsOf(desk, side), ShortsOf(desk, side);
    assert t == [t[0], t[1]];
    DebitAdmissible(desk, side, t[0], t[1]);
    var i :| 0 <= i < |longs| && longs[i] == t[0];
    var j :| 0 <= j < |shorts| && shorts[j] == t[1];
    assert (i, j) in ProductPositions(longs, shorts, DebitArranger(side, desk.policy), t);
  }

  lemma DebitChosenOnce(desk: Desk, side: OptionType, t: seq<Snapshot>)
    ensures ChosenOnce(DebitSpread(side), desk, t,
              ProductPositions(LongsOf(desk, side), ShortsOf(desk, side), DebitArranger(side, desk.policy), t))
  {
    var positions := ProductPositions(LongsOf(desk, side), ShortsOf(desk, side), DebitArranger(side, desk.policy), t);
    if p :| p in positions { DebitFrom(desk, side, t, p); }
    if Admissible(DebitSpread(side), desk, t) { DebitFound(desk, side, t); }
    if DistinctSymbols(desk.universe) {
      UsableDistinct(desk, side);
      forall p, q | p in positions && q in positions ensures p == q {
        DebitFrom(desk, side, t, p);
        DebitFrom(desk, side, t, q);
      }
    }
  }

  method SearchDebit(desk: Desk, side: OptionType) returns (found: seq<seq<Snapshot>>)
    ensures Covers(DebitSpread(side), desk, found)
    ensures DistinctSymbols(desk.universe) ==> CoversOnce(DebitSpread(side), desk, found)
  {
    found := Product(LongsOf(desk, side), ShortsOf(desk, side), DebitArranger(side, desk.policy));
    forall t
      ensures t in found <==> Admissible(DebitSpread(side), desk, t)
      ensures DistinctSymbols(desk.universe) ==>
                multiset(found)[t] == if Admissible(DebitSpread(side), desk, t) then 1 else 0
    {
      DebitChosenOnce(desk, side, t);
      Collects(DebitSpread(side), desk, found, t,
               ProductPositions(LongsOf(desk, side), ShortsOf(desk, side), DebitArranger(side, desk.policy), t));
    }
  }

  lemma VolatilityAdmissible(desk: Desk, sameStrike: bool, put: Snapshot, call: Snapshot)
    ensures Admissible(VolatilityPair(sameStrike), desk, [put, call]) <==>
              && put in UsableOf(desk.universe, Put, desk.policy)
              && call in UsableOf(desk.universe, Call, desk.policy)
              && VolatilityArranger(sameStrike)(put, call) == Some([put, call])
  {
    assert [put, call][0] == put && [put, call][1] == call;
  }

  lemma VolatilityFrom(desk: Desk, sameStrike: bool, t: seq<Snapshot>, p: (int, int))
    requires p in ProductPositions(UsableOf(desk.universe, Put, desk.policy),
                                   UsableOf(desk.universe, Call, desk.policy), VolatilityArranger(sameStrike), t)
    ensures Admissible(VolatilityPair(sameStrike), desk, t)
    ensures UsableOf(desk.universe, Put, desk.policy)[p.0] == t[0]
    ensures UsableOf(desk.universe, Call, desk.policy)[p.1] == t[1]
  {
    VolatilityAdmissible(desk, sameStrike, UsableOf(desk.universe, Put, desk.policy)[p.0],
                         UsableOf(desk.universe, Call, desk.policy)[p.1]);
  }

  lemma VolatilityFound(desk: Desk, sameStrike: bool, t: seq<Snapshot>)
    requires Admissible(VolatilityPair(sameStrike), desk, t)
    ensures ProductPositions(UsableOf(desk.universe, Put, desk.policy),
                             UsableOf(desk.universe, Call, desk.policy), VolatilityArranger(sameStrike), t) != {}
  {
    var puts := UsableOf(desk.universe, Put, desk.policy);
    var calls := UsableOf(desk.universe, Call, desk.policy);
    assert t == [t[0], t[1]];
    VolatilityAdmissible(desk, sameStrike, t[0], t[1]);
    var i :| 0 <= i < |puts| && puts[i] == t[0];
    var j :| 0 <= j < |calls| && calls[j] == t[1];
    assert (i, j) in ProductPositions(puts, calls, VolatilityArranger(sameStrike), t);
  }

  lemma VolatilityChosenOnce(desk: Desk, sameStrike: bool, t: seq<Snapshot>)
    ensures ChosenOnce(VolatilityPair(sameStrike), desk, t,
              ProductPositions(UsableOf(desk.universe, Put, desk.policy),
                               UsableOf(desk.universe, Call, desk.policy), VolatilityArranger(sameStrike), t))
  {
    var positions := ProductPositions(UsableOf(desk.universe, Put, desk.policy),
                                      UsableOf(desk.universe, Call, desk.policy), VolatilityArranger(sameStrike), t);
    if p :| p in positions { VolatilityFrom(desk, sameStrike, t, p); }
    if Admissible(VolatilityPair(sameStrike), desk, t) { VolatilityFound(desk, sameStrike, t); }
    if DistinctSymbols(desk.universe) {
      UsableDistinct(desk, Put);
      UsableDistinct(desk, Call);
      forall p, q | p in positions && q in positions ensures p == q {
        VolatilityFrom(desk, sameStrike, t, p);
        VolatilityFrom(desk, sameStrike, t, q);
      }
    }
  }

  method SearchVolatility(desk: Desk, sameStrike: bool) returns (found: seq<seq<Snapshot>>)
    ensures Covers(VolatilityPair(sameStrike), desk, found)
    ensures DistinctSymbols(desk.universe) ==> CoversOnce(VolatilityPair(sameStrike), desk, found)
  {
    ghost var puts := UsableOf(desk.universe, Put, desk.policy);
    ghost var calls := UsableOf(desk.universe, Call, desk.policy);
    found := Product(UsableOf(desk.universe, Put, desk.policy),
                     UsableOf(desk.universe, Call, desk.policy), VolatilityArranger(sameStrike));
    forall t
      ensures t in found <==> Admissible(VolatilityPair(sameStrike), desk, t)
      ensures DistinctSymbols(desk.universe) ==>
                multiset(found)[t] == if Admissible(VolatilityPair(sameStrike), desk, t) then 1 else 0
    {
      VolatilityChosenOnce(desk, sameStrike, t);
      Collects(VolatilityPair(sameStrike), desk, found, t,
               ProductPositions(puts, calls, VolatilityArranger(sameStrike), t));
    }
  }

  lemma ArrangeCreditOrder(
    a: Snapshot, b: Snapshot, side: OptionType, policy: Policy, cap: Option<real>)
    ensures ArrangeCredit(a, b, side, policy, cap) == ArrangeCredit(b, a, side, policy, cap)
    ensures ArrangeCredit(a, b, side, policy, cap) == Some([a, b]) <==>
              ValidCreditPair(a, b, side, policy, cap)
    ensures ArrangeCredit(a, b, side, policy, cap).Some? ==>
              || ArrangeCredit(a, b, side, policy, cap) == Some([a, b])
              || ArrangeCredit(a, b, side, policy, cap) == Some([b, a])
  {
    if ArrangeCredit(a, b, side, policy, cap) == Some([a, b]) {
      assert [a, b][0] == a;
      assert [b, a][0] == b;
    }
  }

  lemma CreditAdmissible(desk: Desk, side: OptionType, cap: Option<real>, a: Snapshot, b: Snapshot)
    ensures Admissible(CreditSpread(side, cap), desk, [a, b]) <==>
              && a in UsableOf(desk.universe, side, desk.policy)
              && b in UsableOf(desk.universe, side, desk.policy)
              && CreditArranger(side, desk.policy, cap)(a, b) == Some([a, b])
  {
    ArrangeCreditOrder(a, b, side, desk.policy, cap);
    assert [a, b][0] == a && [a, b][1] == b;
  }

  lemma CreditFrom(desk: Desk, side: OptionType, cap: Option<real>, t: seq<Snapshot>, p: (int, int))
    requires p in PairPositions(UsableOf(desk.universe, side, desk.policy), CreditArranger(side, desk.policy, cap), t)
    ensures Admissible(CreditSpread(side, cap), desk, t)
    ensures var legs := UsableOf(desk.universe, side, desk.policy);
            (legs[p.0] == t[0] && legs[p.1] == t[1]) || (legs[p.0] == t[1] && legs[p.1] == t[0])
  {
    var legs := UsableOf(desk.universe, side, desk.policy);
    ArrangeCreditOrder(legs[p.0], legs[p.1], side, desk.policy, cap);
    CreditAdmissible(desk, side, cap, legs[p.0], legs[p.1]);
    CreditAdmissible(desk, side, cap, legs[p.1], legs[p.0]);
  }

  lemma CreditFound(desk: Desk, side: OptionType, cap: Option<real>, t: seq<Snapshot>)
    requires Admissible(CreditSpread(side, cap), desk, t)
    ensures PairPositions(UsableOf(desk.universe, side, desk.policy), CreditArranger(side, desk.policy, cap), t) != {}
  {
    var legs, arrange := UsableOf(desk.universe, side, desk.policy), CreditArranger(side, desk.policy, cap);
    assert t == [t[0], t[1]];
    LegsDiffer(CreditSpread(side, cap), desk, t, 0, 1);
    CreditAdmissible(desk, side, cap, t[0], t[1]);
    ArrangeCreditOrder(t[0], t[1], side, desk.policy, cap);
    var i :| 0 <= i < |legs| && legs[i] == t[0];
    var j :| 0 <= j < |legs| && legs[j] == t[1];
    assert (if i < j then (i, j) else (j, i)) in PairPositions(legs, arrange, t);
  }

  lemma CreditChosenOnce(desk: Desk, side: OptionType, cap: Option<real>, t: seq<Snapshot>)
    ensures ChosenOnce(CreditSpread(side, cap), desk, t,
              PairPositions(UsableOf(desk.universe, side, desk.policy), CreditArranger(side, desk.policy, cap), t))
  {
    var legs, arrange := UsableOf(desk.universe, side, desk.policy), CreditArranger(side, desk.policy, cap);
    var positions := PairPositions(legs, arrange, t);
    if p :| p in positions { CreditFrom(desk, side, cap, t, p); }
    if Admissible(CreditSpread(side, cap), desk, t) { CreditFound(desk, side, cap, t); }
    if DistinctSymbols(desk.universe) {
      forall p, q | p in positions && q in positions ensures p == q { CreditSame(desk, side, cap, t, p, q); }
    }
  }

  lemma CreditSame(
    desk: Desk, side: OptionType, cap: Option<real>, t: seq<Snapshot>, p: (int, int), q: (int, int))
    requires DistinctSymbols(desk.universe)
    requires var positions := PairPositions(UsableOf(desk.universe, side, desk.policy),
                                            CreditArranger(side, desk.policy, cap), t);
             p in positions && q in positions
    ensures p == q
  {
    UsableDistinct(desk, side);
    CreditFrom(desk, side, cap, t, p);
    CreditFrom(desk, side, cap, t, q);
    SamePair(UsableOf(desk.universe, side, desk.policy), p.0, p.1, q.0, q.1, t[0], t[1]);
  }

  /** Two different members of a pool sit at one pair of positions. */
  lemma SamePair(pool: seq<Snapshot>, i: nat, j: nat, k: nat, m: nat, a: Snapshot, b: Snapshot)
    requires DistinctSymbols(pool) && i < j < |pool| && k < m < |pool|
    requires (pool[i] == a && pool[j] == b) || (pool[i] == b && pool[j] == a)
    requires (pool[k] == a && pool[m] == b) || (pool[k] == b && pool[m] == a)
    ensures i == k && j == m
  {
    assert pool[i].Symbol() == pool[k].Symbol() || pool[i].Symbol() == pool[m].Symbol();
  }

  method SearchCredit(desk: Desk, side: OptionType, cap: Option<real>)
    returns (found: seq<seq<Snapshot>>)
    ensures Covers(CreditSpread(side, cap), desk, found)
    ensures DistinctSymbols(desk.universe) ==> CoversOnce(CreditSpread(side, cap), desk, found)
  {
    ghost var legs := UsableOf(desk.universe, side, desk.policy);
    found := Pairs(UsableOf(desk.universe, side, desk.policy), CreditArranger(side, desk.policy, cap));
    forall t
      ensures t in found <==> Admissible(CreditSpread(side, cap), desk, t)
      ensures DistinctSymbols(desk.universe) ==>
                multiset(found)[t] == if Admissible(CreditSpread(side, cap), desk, t) then 1 else 0
    {
      CreditChosenOnce(desk, side, cap, t);
      Collects(CreditSpread(side, cap), desk, found, t,
               PairPositions(legs, CreditArranger(side, desk.policy, cap), t));
    }
  }

  lemma WingsAdmissible(
    s: Structure, desk: Desk, lp: Snapshot, sp: Snapshot, sc: Snapshot, lc: Snapshot)
    requires s.IronCondor? || s.IronButterfly?
    ensures Admissible(s, desk, [lp, sp, sc, lc]) <==>
              && lp in UsableOf(desk.universe, Put, desk.policy)
              && sp in UsableOf(desk.universe, Put, desk.policy)
              && sc in UsableOf(desk.universe, Call, desk.policy)
              && lc in UsableOf(desk.universe, Call, desk.policy)
              && WingsTest(s, lp, sp, sc, lc)
  {
    var t := [lp, sp, sc, lc];
    assert t[0] == lp && t[1] == sp && t[2] == sc && t[3] == lc;
  }

  lemma WingsFrom(s: Structure, desk: Desk, t: seq<Snapshot>, p: (int, int, int, int))
    requires s.IronCondor? || s.IronButterfly?
    requires p in WingPositions(UsableOf(desk.universe, Put, desk.policy),
                                UsableOf(desk.universe, Call, desk.policy), WingsArranger(s), t)
    ensures Admissible(s, desk, t)
    ensures var puts, calls := UsableOf(desk.universe, Put, desk.policy), UsableOf(desk.universe, Call, desk.policy);
            && ((puts[p.0] == t[0] && puts[p.1] == t[1]) || (puts[p.0] == t[1] && puts[p.1] == t[0]))
            && ((calls[p.2] == t[2] && calls[p.3] == t[3]) || (calls[p.2] == t[3] && calls[p.3] == t[2]))
  {
    var puts := UsableOf(desk.universe, Put, desk.policy);
    var calls := UsableOf(desk.universe, Call, desk.policy);
    var (lp, sp) := ByStrikePair(puts[p.0], puts[p.1]);
    var (sc, lc) := ByStrikePair(calls[p.2], calls[p.3]);
    assert t == [lp, sp, sc, lc];
    WingsAdmissible(s, desk, lp, sp, sc, lc);
  }

  lemma WingsArranged(
    s: Structure, lp: Snapshot, sp: Snapshot, sc: Snapshot, lc: Snapshot,
    p: Snapshot, q: Snapshot, c: Snapshot, d: Snapshot)
    requires WingsTest(s, lp, sp, sc, lc)
    requires (p == lp && q == sp) || (p == sp && q == lp)
    requires (c == sc && d == lc) || (c == lc && d == sc)
    ensures WingsArranger(s)(p, q, c, d) == Some([lp, sp, sc, lc])
  {
  }

  lemma WingsFound(s: Structure, desk: Desk, t: seq<Snapshot>)
    requires s.IronCondor? || s.IronButterfly?
    requires Admissible(s, desk, t)
    ensures WingPositions(UsableOf(desk.universe, Put, desk.policy),
                          UsableOf(desk.universe, Call, desk.policy), WingsArranger(s), t) != {}
  {
    var puts := UsableOf(desk.universe, Put, desk.policy);
    var calls := UsableOf(desk.universe, Call, desk.policy);
    var lp, sp, sc, lc := t[0], t[1], t[2], t[3];
    assert t == [lp, sp, sc, lc];
    WingsAdmissible(s, desk, lp, sp, sc, lc);
    var i, j := ChoicePositions(puts, lp, sp);
    var k, m := ChoicePositions(calls, sc, lc);
    WingsArranged(s, lp, sp, sc, lc, puts[i], puts[j], calls[k], calls[m]);
    assert (i, j, k, m) in WingPositions(puts, calls, WingsArranger(s), t);
  }

  lemma WingsSame(s: Structure, desk: Desk, t: seq<Snapshot>, p: (int, int, int, int), q: (int, int, int, int))
    requires (s.IronCondor? || s.IronButterfly?) && DistinctSymbols(desk.universe)
    requires var positions := WingPositions(UsableOf(desk.universe, Put, desk.policy),
                                            UsableOf(desk.universe, Call, desk.policy), WingsArranger(s), t);
             p in positions && q in positions
    ensures p == q
  {
    var puts := UsableOf(desk.universe, Put, desk.policy);
    var calls := UsableOf(desk.universe, Call, desk.policy);
    UsableDistinct(desk, Put);
    UsableDistinct(desk, Call);
    WingsFrom(s, desk, t, p);
    WingsFrom(s, desk, t, q);
    SamePair(puts, p.0, p.1, q.0, q.1, t[0], t[1]);
    SamePair(calls, p.2, p.3, q.2, q.3, t[2], t[3]);
  }

  lemma WingsChosenOnce(s: Structure, desk: Desk, t: seq<Snapshot>)
    requires s.IronCondor? || s.IronButterfly?
    ensures ChosenOnce(s, desk, t,
              WingPositions(UsableOf(desk.universe, Put, desk.policy),
                            UsableOf(desk.universe, Call, desk.policy), WingsArranger(s), t))
  {
    var puts := UsableOf(desk.universe, Put, desk.policy);
    var calls := UsableOf(desk.universe, Call, desk.policy);
    var positions := WingPositions(puts, calls, WingsArranger(s), t);
    if p :| p in positions { WingsFrom(s, desk, t, p); }
    if Admissible(s, desk, t) { WingsFound(s, desk, t); }
    if DistinctSymbols(desk.universe) {
      forall p, q | p in positions && q in positions ensures p == q { WingsSame(s, desk, t, p, q); }
    }
  }

  /** Two different members of a pool are chosen once by the i < j loop. */
  lemma ChoicePositions(pool: seq<Snapshot>, a: Snapshot, b: Snapshot) returns (i: nat, j: nat)
    requires a in pool && b in pool && Strike(a) < Strike(b)
    ensures i < j < |pool|
    ensures (pool[i] == a && pool[j] == b) || (pool[i] == b && pool[j] == a)
  {
    var x :| 0 <= x < |pool| && pool[x] == a;
    var y :| 0 <= y < |pool| && pool[y] == b;
    i, j := if x < y then x else y, if x < y then y else x;
  }

  method SearchWings(s: Structure, desk: Desk) returns (found: seq<seq<Snapshot>>)
    requires s.IronCondor? || s.IronButterfly?
    ensures Covers(s, desk, found)
    ensures DistinctSymbols(desk.universe) ==> CoversOnce(s, desk, found)
  {
    ghost var puts := UsableOf(desk.universe, Put, desk.policy);
    ghost var calls := UsableOf(desk.universe, Call, desk.policy);
    found := PairsOfPairs(UsableOf(desk.universe, Put, desk.policy),
                          UsableOf(desk.universe, Call, desk.policy), WingsArranger(s));
    forall t
      ensures t in found <==> Admissible(s, desk, t)
      ensures DistinctSymbols(desk.universe) ==> multiset(found)[t] == if Admissible(s, desk, t) then 1 else 0
    {
      WingsChosenOnce(s, desk, t);
      Collects(s, desk, found, t, WingPositions(puts, calls, WingsArranger(s), t));
    }
  }

  // ------------------------------------------------------------ long butterflies

  /** Nothing in the spacing test rules out a zero width. Among even legs of one type the width
      is zero exactly when the three legs are one contract under three symbols. */
  lemma ZeroWidthIffOneContract(side: OptionType, legs: seq<Snapshot>)
    requires |legs| == 3 && Sorted(StrikeLess, legs) && EvenlySpaced(legs)
    requires forall i | 0 <= i < 3 :: OfSide(legs[i], side)
    ensures Strike(legs[0]) == Strike(legs[1]) <==>
              (forall i | 0 <= i < 3 ::
                && legs[i].contract.optionType == legs[0].contract.optionType
                && legs[i].contract.strike == legs[0].contract.strike
                && legs[i].contract.expiry == legs[0].contract.expiry)
  {
    assert !StrikeLess(legs[1], legs[0]) && !StrikeLess(legs[2], legs[1]);
    if Strike(legs[0]) == Strike(legs[1]) {
      assert Strike(legs[2]) == Strike(legs[1]);
    } else {
      assert legs[1].contract.strike != legs[0].contract.strike;
    }
  }

  lemma ButterflyAdmissible(desk: Desk, side: OptionType, t: seq<Snapshot>)
    requires |t| == 3
    ensures Admissible(LongButterfly(side), desk, t) <==>
              var pool := UsableOf(desk.universe, side, desk.policy);
              && (forall i | 0 <= i < 3 :: t[i] in pool)
              && Strike(t[0]) <= Strike(t[1]) && EvenlySpaced(t)
              && (Strike(t[0]) == Strike(t[1]) ==> InFeedOrder(pool, t))
  {
  }

  /** What the stable sort does to an evenly spaced triple. */
  lemma ButterflySorted(chosen: seq<Snapshot>)
    requires |chosen| == 3 && EvenlySpaced(ByStrike(chosen))
    ensures Strike(ByStrike(chosen)[0]) <= Strike(ByStrike(chosen)[1])
    ensures Strike(ByStrike(chosen)[0]) == Strike(ByStrike(chosen)[1]) ==> ByStrike(chosen) == chosen
    ensures forall c | c in ByStrike(chosen) :: c in chosen
  {
    var legs := ByStrike(chosen);
    StrikeLessIsWeak();
    SortPermutes(StrikeLess, chosen);
    SortSorted(StrikeLess, chosen);
    assert !StrikeLess(legs[1], legs[0]);
    if Strike(legs[0]) == Strike(legs[1]) {
      assert legs == [legs[0], legs[1], legs[2]];
      assert forall i | 0 <= i < 3 :: chosen[i] in legs;
      SortTied(StrikeLess, chosen);
    }
  }

  lemma ButterflyFrom(desk: Desk, side: OptionType, t: seq<Snapshot>, p: (int, int, int))
    requires p in TriplePositions(UsableOf(desk.universe, side, desk.policy), ButterflyArranger(), t)
    ensures Admissible(LongButterfly(side), desk, t)
    ensures var pool := UsableOf(desk.universe, side, desk.policy);
            Permutation(t, [pool[p.0], pool[p.1], pool[p.2]])
  {
    var pool := UsableOf(desk.universe, side, desk.policy);
    var chosen := [pool[p.0], pool[p.1], pool[p.2]];
    SortPermutes(StrikeLess, chosen);
    assert t == ByStrike(chosen);
    ButterflySorted(chosen);
    forall x | 0 <= x < 3 ensures t[x] in pool {
      assert t[x] in ByStrike(chosen);
    }
    ButterflyAdmissible(desk, side, t);
  }

  lemma ButterflyArranged(a: Snapshot, b: Snapshot, c: Snapshot, t: seq<Snapshot>)
    requires |t| == 3 && Strike(t[0]) < Strike(t[1]) && EvenlySpaced(t)
    requires Permutation(t, [a, b, c])
    ensures ButterflyArranger()(a, b, c) == Some(t)
  {
    var sorted := Sort(StrikeLess, [a, b, c]);
    StrikeLessIsWeak();
    SortSorted(StrikeLess, [a, b, c]);
    SortPermutes(StrikeLess, [a, b, c]);
    RisingStrikes(t);
    SortAscending(StrikeLess, sorted, t);
    assert ByStrike([a, b, c]) == t;
  }

  lemma StrikeLessIsWeak()
    ensures StrictWeak(StrikeLess)
  {
  }

  lemma RisingStrikes(t: seq<Snapshot>)
    requires |t| == 3 && Strike(t[0]) < Strike(t[1]) < Strike(t[2])
    ensures Ascending(StrikeLess, t)
  {
  }

  lemma ZeroWidthArranged(a: Snapshot, b: Snapshot, c: Snapshot)
    requires Strike(a) == Strike(b) == Strike(c) && EvenlySpaced([a, b, c])
    ensures ButterflyArranger()(a, b, c) == Some([a, b, c])
  {
    SortTied(StrikeLess, [a, b, c]);
  }

  /** Three different members of a pool are chosen once by the i < j < k loop. */
  lemma TripleChoice(pool: seq<Snapshot>, t: seq<Snapshot>) returns (i: nat, j: nat, k: nat)
    requires |t| == 3 && (forall x | 0 <= x < 3 :: t[x] in pool)
    requires Strike(t[0]) < Strike(t[1]) < Strike(t[2])
    ensures i < j < k < |pool| && Permutation(t, [pool[i], pool[j], pool[k]])
  {
    var x :| 0 <= x < |pool| && pool[x] == t[0];
    var y :| 0 <= y < |pool| && pool[y] == t[1];
    var z :| 0 <= z < |pool| && pool[z] == t[2];
    assert t == [pool[x], pool[y], pool[z]];
    i, j, k := OrderTriple(pool, x, y, z);
  }

  lemma ButterflyFound(desk: Desk, side: OptionType, t: seq<Snapshot>)
    requires Admissible(LongButterfly(side), desk, t)
    ensures TriplePositions(UsableOf(desk.universe, side, desk.policy), ButterflyArranger(), t) != {}
  {
    var pool := UsableOf(desk.universe, side, desk.policy);
    ButterflyAdmissible(desk, side, t);
    if Strike(t[0]) < Strike(t[1]) {
      var i, j, k := TripleChoice(pool, t);
      ButterflyArranged(pool[i], pool[j], pool[k], t);
      assert (i, j, k) in TriplePositions(pool, ButterflyArranger(), t);
    } else {
      var i, j, k :| 0 <= i < j < k < |pool| && t == [pool[i], pool[j], pool[k]];
      ZeroWidthArranged(pool[i], pool[j], pool[k]);
      assert (i, j, k) in TriplePositions(pool, ButterflyArranger(), t);
    }
  }

  /** Three members of a pool sit at one rising triple of positions. */
  lemma SameTriple(pool: seq<Snapshot>, p: (int, int, int), q: (int, int, int))
    requires DistinctSymbols(pool)
    requires 0 <= p.0 < p.1 < p.2 < |pool| && 0 <= q.0 < q.1 < q.2 < |pool|
    requires Permutation([pool[p.0], pool[p.1], pool[p.2]], [pool[q.0], pool[q.1], pool[q.2]])
    ensures p == q
  {
    var a, b := [pool[p.0], pool[p.1], pool[p.2]], [pool[q.0], pool[q.1], pool[q.2]];
    PermutationMembers(a, b);
    assert a[0] in b && a[1] in b && a[2] in b;
    assert p.0 in {q.0, q.1, q.2} && p.1 in {q.0, q.1, q.2} && p.2 in {q.0, q.1, q.2};
  }

  lemma ButterflyChosenOnce(desk: Desk, side: OptionType, t: seq<Snapshot>)
    ensures ChosenOnce(LongButterfly(side), desk, t,
              TriplePositions(UsableOf(desk.universe, side, desk.policy), ButterflyArranger(), t))
  {
    var pool := UsableOf(desk.universe, side, desk.policy);
    var positions := TriplePositions(pool, ButterflyArranger(), t);
    if p :| p in positions { ButterflyFrom(desk, side, t, p); }
    if Admissible(LongButterfly(side), desk, t) { ButterflyFound(desk, side, t); }
    if DistinctSymbols(desk.universe) {
      UsableDistinct(desk, side);
      forall p, q | p in positions && q in positions ensures p == q {
        ButterflyFrom(desk, side, t, p);
        ButterflyFrom(desk, side, t, q);
        SameTriple(pool, p, q);
      }
    }
  }

  method SearchButterfly(desk: Desk, side: OptionType) returns (found: seq<seq<Snapshot>>)
    ensures Covers(LongButterfly(side), desk, found)
    ensures DistinctSymbols(desk.universe) ==> CoversOnce(LongButterfly(side), desk, found)
  {
    ghost var pool := UsableOf(desk.universe, side, desk.policy);
    found := Triples(UsableOf(desk.universe, side, desk.policy), ButterflyArranger());
    forall t
      ensures t in found <==> Admissible(LongButterfly(side), desk, t)
      ensures DistinctSymbols(desk.universe) ==>
                multiset(found)[t] == if Admissible(LongButterfly(side), desk, t) then 1 else 0
    {
      ButterflyChosenOnce(desk, side, t);
      Collects(LongButterfly(side), desk, found, t, TriplePositions(pool, ButterflyArranger(), t));
    }
  }

  // ------------------------------------------------------------ sort and select

  function Rows(s: Structure, desk: Desk, found: seq<seq<Snapshot>>): (rows: seq<Row>)
    requires desk.Valid() && forall i | 0 <= i < |found| :: |found[i]| == LegCount(s)
    ensures |rows| == |found|
    ensures forall i | 0 <= i < |found| :: rows[i] == RowOf(s, desk, found[i])
  {
    seq(|found|, i requires 0 <= i < |found| => RowOf(s, desk, found[i]))
  }

  lemma HeadIsBest(s: Structure, desk: Desk, found: seq<seq<Snapshot>>)
    requires desk.Valid() && Covers(s, desk, found) && found != []
    requires forall i | 0 <= i < |found| :: |found[i]| == LegCount(s)
    ensures var ranked := Sort(RowLess, Rows(s, desk, found));
            ranked != [] && Best(s, desk, ranked[0].legs) && ranked[0] == RowOf(s, desk, ranked[0].legs)
  {
    var rows := Rows(s, desk, found);
    RowLessStrictWeak();
    SortHead(RowLess, rows);
    var head := Sort(RowLess, rows)[0];
    var h :| 0 <= h < |rows| && rows[h] == head;
    assert found[h] in found;
    forall other | Admissible(s, desk, other)
      ensures !RowLess(RowOf(s, desk, other), RowOf(s, desk, head.legs))
    {
      assert other in found;
      var i :| 0 <= i < |found| && found[i] == other;
      assert rows[i] in rows;
    }
  }

  /** `rows.sort(key); rows[0]`, or the refusal when no row was collected. */
  method Select(s: Structure, desk: Desk, all: seq<Snapshot>, found: seq<seq<Snapshot>>)
    returns (b: Binding)
    requires desk.Valid() && Covers(s, desk, found)
    ensures Binds(s, desk, all, b)
  {
    if found == [] {
      b := Unbound(DominantReason(desk.universe, desk.policy), Rejected(all, []));
      assert forall legs :: Admissible(s, desk, legs) ==> legs in found;
    } else {
      forall i | 0 <= i < |found| ensures |found[i]| == LegCount(s) {
        assert found[i] in found;
      }
      HeadIsBest(s, desk, found);
      var ranked := Sort(RowLess, Rows(s, desk, found));
      var legs := ranked[0].legs;
      b := Outcome(s, desk, all, legs);
    }
  }

  // -------------------------------------------------------------------- requests

  datatype CreditKind = BullPutCredit | BearCallCredit | AnyCredit

  datatype Family =
    | DebitFamily
    | CreditFamily(kind: CreditKind, maxRiskRatio: Option<real>)
    | CondorFamily
    | IronButterflyFamily
    | LongButterflyFamily(side: OptionType)
    | VolatilityFamily(sameStrike: bool)

  datatype Request = Request(
    all: seq<Snapshot>, trend: Trend, volatility: Volatility, policy: Policy,
    p1: Option<Observed>, master: Option<set<string>>)
  {
    function Desk(): Desk {
      Search.Desk(
        if master.None? then all
        else Filter((c: Snapshot) => c.Symbol() in master.value, all), policy, p1)
    }

    predicate Valid() { Desk().Valid() }
  }

  function DirectionType(trend: Trend): Option<OptionType> {
    match trend
    case Up => Some(Call)
    case Down => Some(Put)
    case _ => None
  }

  /** A credit family binds only when the trend agrees with it. */
  function CreditOptionType(kind: CreditKind, trend: Trend): Option<OptionType> {
    match kind
    case BullPutCredit => if trend.Up? then Some(Put) else None
    case BearCallCredit => if trend.Down? then Some(Call) else None
    case AnyCredit => if trend.Up? then Some(Put) else if trend.Down? then Some(Call) else None
  }

  /** The market gate in front of each search: a structure to look for, or the refusal. */
  function Gate(family: Family, r: Request): Result<Structure, Reason>
  {
    match family
    case DebitFamily =>
      (match DirectionType(r.trend)
       case Some(side) => Ok(DebitSpread(side))
       case None => Err(DominantReason(r.Desk().universe, r.policy)))
    case CreditFamily(kind, cap) =>
      (match CreditOptionType(kind, r.trend)
       case Some(side) => Ok(CreditSpread(side, cap))
       case None => Err(DirectionUnresolved))
    case CondorFamily => if r.trend.Range? then Ok(IronCondor) else Err(DataInvalid)
    case IronButterflyFamily => if r.trend.Range? then Ok(IronButterfly) else Err(DataInvalid)
    case LongButterflyFamily(side) => if r.trend.Range? then Ok(LongButterfly(side)) else Err(DataInvalid)
    case VolatilityFamily(same) =>
      if r.volatility.Compressed? then Err(DataInvalid) else Ok(VolatilityPair(same))
  }

  predicate MasterAbsent(r: Request) { r.master.Some? && r.Desk().universe == [] }

  function Plan(family: Family, r: Request): Result<Structure, Reason> {
    if MasterAbsent(r) then Err(InstrumentMasterAbsent) else Gate(family, r)
  }

  /** What a binder promises once its gates have been passed or not. */
  ghost predicate Answers(plan: Result<Structure, Reason>, r: Request, b: Binding)
    requires r.Valid()
  {
    match plan
    case Err(reason) => b == Unbound(reason, Rejected(r.all, []))
    case Ok(s) => Binds(s, r.Desk(), r.all, b)
  }

  ghost predicate Honours(family: Family, r: Request, b: Binding)
    requires r.Valid()
  {
    Answers(Plan(family, r), r, b)
  }

  method Bind(family: Family, r: Request) returns (b: Binding)
    requires r.Valid()
    ensures Honours(family, r, b)
  {
    var desk, plan := r.Desk(), Plan(family, r);
    if plan.Err? {
      return Unbound(plan.error, Rejected(r.all, []));
    }
    var s, found := plan.value, [];
    match s {
      case DebitSpread(side) => found := SearchDebit(desk, side);
      case CreditSpread(side, cap) => found := SearchCredit(desk, side, cap);
      case VolatilityPair(same) => found := SearchVolatility(desk, same);
      case LongButterfly(side) => found := SearchButterfly(desk, side);
      case IronCondor => found := SearchWings(s, desk);
      case IronButterfly => found := SearchWings(s, desk);
    }
    b := Select(s, desk, r.all, found);
  }

  /** A bound request splits the feed's symbols into selected and rejected. */
  lemma BindingPartitionsTheFeed(family: Family, r: Request, b: Binding)
    requires r.Valid() && DistinctSymbols(r.all) && Honours(family, r, b) && b.Bound?
    ensures multiset(b.selected) + multiset(b.rejected) == multiset(Symbols(r.all))
  {
    var s, desk := Plan(family, r).value, r.Desk();
    if r.master.Some? {
      FilterMembers((c: Snapshot) => c.Symbol() in r.master.value, r.all);
      FilterDistinct((c: Snapshot) => c.Symbol() in r.master.value, r.all);
    }
    var legs :| Best(s, desk, legs) && b == Outcome(s, desk, r.all, legs);
    SelectedAndRejectedPartition(s, desk, r.all, legs);
  }
}
