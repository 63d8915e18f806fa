/** The binders' nested loops. `arrange` orders one choice of positions into legs, or refuses it;
    a loop collects legs exactly as often as there are choices arranged into them. */
module Enumeration {
  import opened Wrappers

  ghost function PairPositions<T, U>(xs: seq<T>, arrange: (T, T) -> Option<U>, t: U): set<(int, int)> {
    set i, j | 0 <= i < j < |xs| && arrange(xs[i], xs[j]) == Some(t) :: (i, j)
  }

  ghost function ProductPositions<T, U>(xs: seq<T>, ys: seq<T>, arrange: (T, T) -> Option<U>, t: U)
    : set<(int, int)>
  {
    set i, j | 0 <= i < |xs| && 0 <= j < |ys| && arrange(xs[i], ys[j]) == Some(t) :: (i, j)
  }

  ghost function TriplePositions<T, U>(xs: seq<T>, arrange: (T, T, T) -> Option<U>, t: U): set<(int, int, int)> {
    set i, j, k | 0 <= i < j < k < |xs| && arrange(xs[i], xs[j], xs[k]) == Some(t) :: (i, j, k)
  }

  ghost function WingPositions<T, U>(ps: seq<T>, cs: seq<T>, arrange: (T, T, T, T) -> Option<U>, t: U)
    : set<(int, int, int, int)>
  {
    set i, j, k, m | 0 <= i < j < |ps| && 0 <= k < m < |cs| && arrange(ps[i], ps[j], cs[k], cs[m]) == Some(t)
      :: (i, j, k, m)
  }

  // ------------------------------------------------------- choices in the order of visit

  /** The legs of the visited choices that were not refused. */
  ghost function Collected<P, U>(visited: seq<P>, legsOf: P -> Option<U>): seq<U> {
    if visited == [] then []
    else
      var n := |visited| - 1;
      var rest, last := Collected(visited[..n], legsOf), legsOf(visited[n]);
      if last.Some? then rest + [last.value] else rest
  }

  ghost predicate NoRepeats<P>(visited: seq<P>) {
    forall i, j | 0 <= i < j < |visited| :: visited[i] != visited[j]
  }

  ghost function ChoicesOf<P(!new), U>(visited: seq<P>, legsOf: P -> Option<U>, t: U): set<P> {
    set p | p in visited && legsOf(p) == Some(t)
  }

  /** Legs are collected once for each visited choice of theirs. */
  lemma {:induction false} CollectedCount<P(!new), U>(visited: seq<P>, legsOf: P -> Option<U>, t: U)
    requires NoRepeats(visited)
    ensures multiset(Collected(visited, legsOf))[t] == |ChoicesOf(visited, legsOf, t)|
  {
    if visited != [] {
      var n := |visited| - 1;
      var front, last := visited[..n], visited[n];
      CollectedCount(front, legsOf, t);
      assert visited == front + [last] && last !in front;
      if legsOf(last) == Some(t) {
        assert ChoicesOf(visited, legsOf, t) == ChoicesOf(front, legsOf, t) + {last};
      } else {
        assert ChoicesOf(visited, legsOf, t) == ChoicesOf(front, legsOf, t);
      }
    }
  }

  lemma CollectedWith<P, U>(visited: seq<P>, legsOf: P -> Option<U>, p: P)
    ensures Collected(visited + [p], legsOf)
         == Collected(visited, legsOf) + if legsOf(p).Some? then [legsOf(p).value] else []
  {
    assert (visited + [p])[..|visited|] == visited;
  }

  ghost function PairLegs<T, U>(xs: seq<T>, arrange: (T, T) -> Option<U>): ((int, int)) -> Option<U> {
    (p: (int, int)) => if 0 <= p.0 < p.1 < |xs| then arrange(xs[p.0], xs[p.1]) else None
  }

  ghost function ProductLegs<T, U>(xs: seq<T>, ys: seq<T>, arrange: (T, T) -> Option<U>): ((int, int)) -> Option<U> {
    (p: (int, int)) => if 0 <= p.0 < |xs| && 0 <= p.1 < |ys| then arrange(xs[p.0], ys[p.1]) else None
  }

  ghost function TripleLegs<T, U>(xs: seq<T>, arrange: (T, T, T) -> Option<U>): ((int, int, int)) -> Option<U> {
    (p: (int, int, int)) =>
      if 0 <= p.0 < p.1 < p.2 < |xs| then arrange(xs[p.0], xs[p.1], xs[p.2]) else None
  }

  ghost function WingLegs<T, U>(ps: seq<T>, cs: seq<T>, arrange: (T, T, T, T) -> Option<U>)
    : ((int, int, int, int)) -> Option<U>
  {
    (p: (int, int, int, int)) =>
      if 0 <= p.0 < p.1 < |ps| && 0 <= p.2 < p.3 < |cs|
      then arrange(ps[p.0], ps[p.1], cs[p.2], cs[p.3]) else None
  }

  // ------------------------------------------------------------------------ the loops

  /** for x in xs: for y in ys */
  method Product<T, U(!new)>(xs: seq<T>, ys: seq<T>, arrange: (T, T) -> Option<U>)
    returns (found: seq<U>)
    ensures forall t :: multiset(found)[t] == |ProductPositions(xs, ys, arrange, t)|
  {
    found := [];
    ghost var visited, legsOf := [], ProductLegs(xs, ys, arrange);
    for i := 0 to |xs|
      invariant found == Collected(visited, legsOf) && NoRepeats(visited)
      invariant forall p :: p in visited <==> 0 <= p.0 < i && 0 <= p.1 < |ys|
    {
      for j := 0 to |ys|
        invariant found == Collected(visited, legsOf) && NoRepeats(visited)
        invariant forall p :: p in visited <==>
          0 <= p.0 && 0 <= p.1 < |ys| && (p.0 < i || (p.0 == i && p.1 < j))
      {
        CollectedWith(visited, legsOf, (i, j));
        visited := visited + [(i, j)];
        var legs := arrange(xs[i], ys[j]);
        if legs.Some? {
          found := found + [legs.value];
        }
      }
    }
    forall t ensures multiset(found)[t] == |ProductPositions(xs, ys, arrange, t)| {
      CollectedCount(visited, legsOf, t);
      assert ChoicesOf(visited, legsOf, t) == ProductPositions(xs, ys, arrange, t);
    }
  }

  /** for i: for j > i */
  method Pairs<T, U(!new)>(xs: seq<T>, arrange: (T, T) -> Option<U>) returns (found: seq<U>)
    ensures forall t :: multiset(found)[t] == |PairPositions(xs, arrange, t)|
  {
    found := [];
    ghost var visited, legsOf := [], PairLegs(xs, arrange);
    for i := 0 to |xs|
      invariant found == Collected(visited, legsOf) && NoRepeats(visited)
      invariant forall p :: p in visited <==> 0 <= p.0 < p.1 < |xs| && p.0 < i
    {
      for j := i + 1 to |xs|
        invariant found == Collected(visited, legsOf) && NoRepeats(visited)
        invariant forall p :: p in visited <==>
          0 <= p.0 < p.1 < |xs| && (p.0 < i || (p.0 == i && p.1 < j))
      {
        CollectedWith(visited, legsOf, (i, j));
        visited := visited + [(i, j)];
        var legs := arrange(xs[i], xs[j]);
        if legs.Some? {
          found := found + [legs.value];
        }
      }
    }
    forall t ensures multiset(found)[t] == |PairPositions(xs, arrange, t)| {
      CollectedCount(visited, legsOf, t);
      assert ChoicesOf(visited, legsOf, t) == PairPositions(xs, arrange, t);
    }
  }

  /** for i: for j > i: for k > j */
  method Triples<T, U(!new)>(xs: seq<T>, arrange: (T, T, T) -> Option<U>) returns (found: seq<U>)
    ensures forall t :: multiset(found)[t] == |TriplePositions(xs, arrange, t)|
  {
    found := [];
    ghost var visited, legsOf := [], TripleLegs(xs, arrange);
    for i := 0 to |xs|
      invariant found == Collected(visited, legsOf) && NoRepeats(visited)
      invariant forall p :: p in visited <==> 0 <= p.0 < p.1 < p.2 < |xs| && p.0 < i
    {
      for j := i + 1 to |xs|
        invariant found == Collected(visited, legsOf) && NoRepeats(visited)
        invariant forall p :: p in visited <==>
          0 <= p.0 < p.1 < p.2 < |xs| && (p.0 < i || (p.0 == i && p.1 < j))
      {
        for k := j + 1 to |xs|
          invariant found == Collected(visited, legsOf) && NoRepeats(visited)
          invariant forall p :: p in visited <==>
            && 0 <= p.0 < p.1 < p.2 < |xs|
            && (p.0 < i || (p.0 == i && (p.1 < j || (p.1 == j && p.2 < k))))
        {
          CollectedWith(visited, legsOf, (i, j, k));
          visited := visited + [(i, j, k)];
          var legs := arrange(xs[i], xs[j], xs[k]);
          if legs.Some? {
            found := found + [legs.value];
          }
        }
      }
    }
    forall t ensures multiset(found)[t] == |TriplePositions(xs, arrange, t)| {
      CollectedCount(visited, legsOf, t);
      assert ChoicesOf(visited, legsOf, t) == TriplePositions(xs, arrange, t);
    }
  }

  /** A choice of wings whose puts come before (i, j) in the order of the loops. */
  ghost predicate WingsBefore(p: (int, int, int, int), puts: nat, calls: nat, i: int, j: int) {
    && 0 <= p.0 < p.1 < puts && 0 <= p.2 < p.3 < calls
    && (p.0 < i || (p.0 == i && p.1 < j))
  }

  /** The loops over the calls, for one pair of puts. */
  method WingRow<T, U(!new)>(
    ps: seq<T>, cs: seq<T>, arrange: (T, T, T, T) -> Option<U>, i: nat, j: nat, before: seq<U>,
    ghost seen: seq<(int, int, int, int)>)
    returns (found: seq<U>, ghost visited: seq<(int, int, int, int)>)
    requires i < j < |ps|
    requires before == Collected(seen, WingLegs(ps, cs, arrange)) && NoRepeats(seen)
    requires forall p :: p in seen <==> WingsBefore(p, |ps|, |cs|, i, j)
    ensures found == Collected(visited, WingLegs(ps, cs, arrange)) && NoRepeats(visited)
    ensures forall p :: p in visited <==> WingsBefore(p, |ps|, |cs|, i, j + 1)
  {
    found, visited := before, seen;
    ghost var legsOf := WingLegs(ps, cs, arrange);
    for k := 0 to |cs|
      invariant found == Collected(visited, legsOf) && NoRepeats(visited)
      invariant forall p :: p in visited <==>
        || WingsBefore(p, |ps|, |cs|, i, j)
        || (p.0 == i && p.1 == j && 0 <= p.2 < p.3 < |cs| && p.2 < k)
    {
      for m := k + 1 to |cs|
        invariant found == Collected(visited, legsOf) && NoRepeats(visited)
        invariant forall p :: p in visited <==>
          || WingsBefore(p, |ps|, |cs|, i, j)
          || (p.0 == i && p.1 == j && 0 <= p.2 < p.3 < |cs| && (p.2 < k || (p.2 == k && p.3 < m)))
      {
        CollectedWith(visited, legsOf, (i, j, k, m));
        visited := visited + [(i, j, k, m)];
        var legs := arrange(ps[i], ps[j], cs[k], cs[m]);
        if legs.Some? {
          found := found + [legs.value];
        }
      }
    }
  }

  /** for i: for j > i over one side, then for k: for m > k over the other */
  method PairsOfPairs<T, U(!new)>(ps: seq<T>, cs: seq<T>, arrange: (T, T, T, T) -> Option<U>)
    returns (found: seq<U>)
    ensures forall t :: multiset(found)[t] == |WingPositions(ps, cs, arrange, t)|
  {
    found := [];
    ghost var visited, legsOf := [], WingLegs(ps, cs, arrange);
    for i := 0 to |ps|
      invariant found == Collected(visited, legsOf) && NoRepeats(visited)
      invariant forall p :: p in visited <==> WingsBefore(p, |ps|, |cs|, i, i + 1)
    {
      for j := i + 1 to |ps|
        invariant found == Collected(visited, legsOf) && NoRepeats(visited)
        invariant forall p :: p in visited <==> WingsBefore(p, |ps|, |cs|, i, j)
      {
        found, visited := WingRow(ps, cs, arrange, i, j, found, visited);
      }
    }
    forall t ensures multiset(found)[t] == |WingPositions(ps, cs, arrange, t)| {
      CollectedCount(visited, legsOf, t);
      assert ChoicesOf(visited, legsOf, t) == WingPositions(ps, cs, arrange, t);
    }
  }

  // ------------------------------------------------------------------- reading the counts

  /** Legs are collected when some choice is arranged into them, and once when there is one such. */
  lemma FoundWhen<P(!new), U>(found: seq<U>, t: U, positions: set<P>)
    requires multiset(found)[t] == |positions|
    ensures t in found <==> positions != {}
    ensures (forall p, q | p in positions && q in positions :: p == q) ==> multiset(found)[t] <= 1
  {
    assert t in found <==> t in multiset(found);
    if positions != {} {
      var p :| p in positions;
      if forall q | q in positions :: p == q { assert positions == {p}; }
    }
  }
}
