/** Python's tuple and string order, and its stable `sorted`, with the facts every sorted search
    needs: a filter keeps members, order and counts; a stable sort permutes, keeps ties in their
    first order, and its head is the least element. A string order is total, so sorting distinct
    keys has one answer whatever the order they arrive in. */
module Ordering {

  // ---------------------------------------------------------------- sequences

  function Filter<T>(p: T -> bool, xs: seq<T>): seq<T> {
    if xs == [] then []
    else if p(xs[|xs| - 1]) then Filter(p, xs[..|xs| - 1]) + [xs[|xs| - 1]]
    else Filter(p, xs[..|xs| - 1])
  }

  lemma {:induction false} FilterMembers<T>(p: T -> bool, xs: seq<T>)
    ensures forall x | x in Filter(p, xs) :: x in xs && p(x)
    ensures forall x | x in xs && p(x) :: x in Filter(p, xs)
  {
    if xs != [] {
      var n := |xs| - 1;
      FilterMembers(p, xs[..n]);
      assert xs == xs[..n] + [xs[n]];
    }
  }

  lemma {:induction false} FilterAppend<T>(p: T -> bool, xs: seq<T>, ys: seq<T>)
    ensures Filter(p, xs + ys) == Filter(p, xs) + Filter(p, ys)
  {
    if ys == [] {
      assert xs + ys == xs;
    } else {
      var n := |ys| - 1;
      assert (xs + ys)[..|xs + ys| - 1] == xs + ys[..n];
      FilterAppend(p, xs, ys[..n]);
    }
  }

  lemma AppendThree<T>(f: seq<T>, a: seq<T>, b: seq<T>, c: seq<T>)
    ensures ((f + a) + b) + c == f + (a + b + c)
  {
  }

  lemma AppendFour<T>(f: seq<T>, a: seq<T>, b: seq<T>, c: seq<T>, d: seq<T>)
    ensures (((f + a) + b) + c) + d == f + (a + b + c + d)
  {
    AppendThree(f, a, b, c);
  }

  lemma FilterNone<T>(p: T -> bool, xs: seq<T>)
    requires forall x | x in xs :: !p(x)
    ensures Filter(p, xs) == []
  {
  }

  lemma {:induction false} FilterAll<T>(p: T -> bool, xs: seq<T>)
    requires forall x | x in xs :: p(x)
    ensures Filter(p, xs) == xs
  {
    if xs != [] {
      var n := |xs| - 1;
      FilterAll(p, xs[..n]);
      assert xs == xs[..n] + [xs[n]];
    }
  }

  lemma SplitEqual<T>(a: seq<T>, b: seq<T>, c: seq<T>, d: seq<T>)
    requires a + b == c + d && |b| == |d|
    ensures a == c && b == d
  {
    assert |a + b| == |c + d|;
    assert a == (a + b)[..|a|] && c == (c + d)[..|c|];
    assert b == (a + b)[|a|..] && d == (c + d)[|c|..];
  }

  ghost predicate Permutation<T>(xs: seq<T>, ys: seq<T>) {
    multiset(xs) == multiset(ys)
  }

  lemma PermutationMembers<T>(xs: seq<T>, ys: seq<T>)
    requires Permutation(xs, ys)
    ensures |xs| == |ys|
    ensures forall x :: x in xs <==> x in ys
  {
    assert |multiset(xs)| == |xs| && |multiset(ys)| == |ys|;
    forall x ensures x in xs <==> x in ys {
      assert x in xs <==> x in multiset(xs);
      assert x in ys <==> x in multiset(ys);
    }
  }

  lemma MultisetTail<T>(xs: seq<T>)
    requires xs != []
    ensures multiset(xs[1..]) == multiset(xs) - multiset{xs[0]}
  {
    assert xs == [xs[0]] + xs[1..];
  }

  lemma RemoveAt<T>(xs: seq<T>, j: nat)
    requires j < |xs|
    ensures multiset(xs[..j] + xs[j + 1..]) == multiset(xs) - multiset{xs[j]}
  {
    assert xs == xs[..j] + [xs[j]] + xs[j + 1..];
  }

  /** The head of one list sits somewhere in its permutation, and the rests permute. */
  lemma PermutationTail<T>(xs: seq<T>, ys: seq<T>) returns (j: nat)
    requires Permutation(xs, ys) && xs != []
    ensures j < |ys| && ys[j] == xs[0]
    ensures Permutation(xs[1..], ys[..j] + ys[j + 1..])
  {
    assert xs[0] in multiset(ys);
    j :| 0 <= j < |ys| && ys[j] == xs[0];
    MultisetTail(xs);
    RemoveAt(ys, j);
  }

  /** How often `x` occurs among the kept elements. */
  lemma {:induction false} FilterCount<T>(p: T -> bool, xs: seq<T>, x: T)
    ensures multiset(Filter(p, xs))[x] == if p(x) then multiset(xs)[x] else 0
  {
    if xs != [] {
      var n := |xs| - 1;
      FilterCount(p, xs[..n], x);
      assert xs == xs[..n] + [xs[n]];
      assert multiset(xs) == multiset(xs[..n]) + multiset{xs[n]};
    }
  }

  lemma FilterPermutation<T(!new)>(p: T -> bool, xs: seq<T>, ys: seq<T>)
    requires Permutation(xs, ys)
    ensures Permutation(Filter(p, xs), Filter(p, ys))
  {
    forall x: T
      ensures multiset(Filter(p, xs))[x] == multiset(Filter(p, ys))[x]
    {
      FilterCount(p, xs, x);
      FilterCount(p, ys, x);
    }
    assert multiset(Filter(p, xs)) == multiset(Filter(p, ys));
  }

  // ------------------------------------------------------- lexicographic order

  predicate LexLess<T(==)>(less: (T, T) -> bool, a: seq<T>, b: seq<T>) {
    if b == [] then false
    else if a == [] then true
    else if a[0] == b[0] then LexLess(less, a[1..], b[1..])
    else less(a[0], b[0])
  }

  ghost predicate StrictTotal<T(!new)>(less: (T, T) -> bool) {
    && (forall x :: !less(x, x))
    && (forall x, y, z :: less(x, y) && less(y, z) ==> less(x, z))
    && (forall x, y :: x == y || less(x, y) || less(y, x))
  }

  lemma {:induction false} LexIrreflexive<T(!new)>(less: (T, T) -> bool, a: seq<T>)
    ensures !LexLess(less, a, a)
  {
    if a != [] { LexIrreflexive(less, a[1..]); }
  }

  lemma {:induction false} LexTotal<T(!new)>(less: (T, T) -> bool, a: seq<T>, b: seq<T>)
    requires StrictTotal(less)
    ensures a == b || LexLess(less, a, b) || LexLess(less, b, a)
  {
    if a != [] && b != [] && a[0] == b[0] {
      LexTotal(less, a[1..], b[1..]);
      assert a == [a[0]] + a[1..] && b == [b[0]] + b[1..];
    }
  }

  lemma {:induction false} LexTransitive<T(!new)>(
    less: (T, T) -> bool, a: seq<T>, b: seq<T>, c: seq<T>)
    requires StrictTotal(less)
    requires LexLess(less, a, b) && LexLess(less, b, c)
    ensures LexLess(less, a, c)
  {
    if a != [] && a[0] == b[0] == c[0] {
      LexTransitive(less, a[1..], b[1..], c[1..]);
    }
  }

  predicate CharLess(a: char, b: char) { a < b }

  /** Python compares strings by code point. */
  predicate StringLess(a: string, b: string) { LexLess(CharLess, a, b) }

  /** Python compares tuples of strings component by component. */
  predicate SymbolsLess(a: seq<string>, b: seq<string>) { LexLess(StringLess, a, b) }

  lemma StringLessStrictTotal()
    ensures StrictTotal(StringLess)
  {
    forall x: string ensures !StringLess(x, x) { LexIrreflexive(CharLess, x); }
    forall x: string, y: string, z: string | StringLess(x, y) && StringLess(y, z)
      ensures StringLess(x, z)
    {
      LexTransitive(CharLess, x, y, z);
    }
    forall x: string, y: string ensures x == y || StringLess(x, y) || StringLess(y, x) {
      LexTotal(CharLess, x, y);
    }
  }

  lemma SymbolsLessStrictTotal()
    ensures StrictTotal(SymbolsLess)
  {
    StringLessStrictTotal();
    forall x: seq<string> ensures !SymbolsLess(x, x) { LexIrreflexive(StringLess, x); }
    forall x: seq<string>, y: seq<string>, z: seq<string> | SymbolsLess(x, y) && SymbolsLess(y, z)
      ensures SymbolsLess(x, z)
    {
      LexTransitive(StringLess, x, y, z);
    }
    forall x: seq<string>, y: seq<string>
      ensures x == y || SymbolsLess(x, y) || SymbolsLess(y, x)
    {
      LexTotal(StringLess, x, y);
    }
  }

  // -------------------------------------------------------------- stable sort

  /** A strict weak order: elements that are not ordered either way tie. */
  ghost predicate StrictWeak<T(!new)>(less: (T, T) -> bool) {
    && (forall x, y :: less(x, y) ==> !less(y, x))
    && (forall x, y, z :: less(x, y) ==> less(x, z) || less(z, y))
  }

  lemma StrictTotalIsWeak<T(!new)>(less: (T, T) -> bool)
    requires StrictTotal(less)
    ensures StrictWeak(less)
  {
    forall x, y | less(x, y) ensures !less(y, x) {
      assert !less(x, x);
    }
    forall x, y, z | less(x, y) ensures less(x, z) || less(z, y) {
      assert x == z || less(x, z) || less(z, x);
    }
  }

  function Insert<T>(less: (T, T) -> bool, x: T, xs: seq<T>): seq<T> {
    if xs == [] || less(x, xs[0]) then [x] + xs
    else [xs[0]] + Insert(less, x, xs[1..])
  }

  lemma {:induction false} InsertPermutes<T>(less: (T, T) -> bool, x: T, xs: seq<T>)
    ensures multiset(Insert(less, x, xs)) == multiset(xs) + multiset{x}
  {
    if xs != [] && !less(x, xs[0]) {
      InsertPermutes(less, x, xs[1..]);
      assert xs == [xs[0]] + xs[1..];
    }
  }

  /** `sorted(xs, key=...)`, with ties left in their original order. */
  function Sort<T>(less: (T, T) -> bool, xs: seq<T>): seq<T> {
    if xs == [] then [] else Insert(less, xs[|xs| - 1], Sort(less, xs[..|xs| - 1]))
  }

  lemma {:induction false} SortPermutes<T>(less: (T, T) -> bool, xs: seq<T>)
    ensures Permutation(Sort(less, xs), xs)
    ensures |Sort(less, xs)| == |xs|
    ensures forall x :: x in Sort(less, xs) <==> x in xs
  {
    if xs != [] {
      var n := |xs| - 1;
      SortPermutes(less, xs[..n]);
      InsertPermutes(less, xs[n], Sort(less, xs[..n]));
      assert xs == xs[..n] + [xs[n]];
    }
    PermutationMembers(Sort(less, xs), xs);
  }

  ghost predicate Sorted<T>(less: (T, T) -> bool, xs: seq<T>) {
    forall i, j :: 0 <= i < j < |xs| ==> !less(xs[j], xs[i])
  }

  lemma {:induction false} InsertSorted<T(!new)>(less: (T, T) -> bool, x: T, xs: seq<T>)
    requires StrictWeak(less) && Sorted(less, xs)
    ensures Sorted(less, Insert(less, x, xs))
  {
    var ys := Insert(less, x, xs);
    if xs == [] {
    } else if less(x, xs[0]) {
      forall i, j | 0 <= i < j < |ys| ensures !less(ys[j], ys[i]) {
        if i == 0 {
          assert ys[j] == xs[j - 1];
          assert ys[i] == x;
        } else {
          assert ys[i] == xs[i - 1] && ys[j] == xs[j - 1];
        }
      }
    } else {
      InsertSorted(less, x, xs[1..]);
      var tail := Insert(less, x, xs[1..]);
      InsertPermutes(less, x, xs[1..]);
      forall j | 0 <= j < |tail| ensures !less(tail[j], xs[0]) {
        assert tail[j] in multiset(tail);
        assert tail[j] == x || tail[j] in xs[1..];
      }
    }
  }

  lemma {:induction false} SortSorted<T(!new)>(less: (T, T) -> bool, xs: seq<T>)
    requires StrictWeak(less)
    ensures Sorted(less, Sort(less, xs))
  {
    if xs != [] {
      SortSorted(less, xs[..|xs| - 1]);
      InsertSorted(less, xs[|xs| - 1], Sort(less, xs[..|xs| - 1]));
    }
  }

  /** The head of a sorted list is beaten by nothing in the input. */
  lemma SortHead<T(!new)>(less: (T, T) -> bool, xs: seq<T>)
    requires StrictWeak(less) && xs != []
    ensures |Sort(less, xs)| == |xs|
    ensures Sort(less, xs)[0] in xs
    ensures forall x :: x in xs ==> !less(x, Sort(less, xs)[0])
  {
    var ys := Sort(less, xs);
    SortSorted(less, xs);
    SortPermutes(less, xs);
    assert ys[0] in ys;
  }

  /** Two elements of one tied class are not ordered. */
  ghost predicate Tied<T(!new)>(less: (T, T) -> bool, p: T -> bool) {
    forall a, b :: p(a) && p(b) ==> !less(a, b)
  }

  lemma InsertFrontStable<T(!new)>(less: (T, T) -> bool, p: T -> bool, x: T, xs: seq<T>)
    requires Tied(less, p) && StrictWeak(less) && Sorted(less, xs)
    requires xs != [] && less(x, xs[0])
    ensures Filter(p, [x] + xs) == Filter(p, xs) + Filter(p, [x])
  {
    var h := xs[0];
    FilterAppend(p, [x], xs);
    if p(x) {
      forall y | y in xs ensures !p(y) {
        assert less(x, y) || less(y, h);
      }
      FilterNone(p, xs);
    } else {
      FilterNone(p, [x]);
    }
  }

  lemma FilterFirst<T>(p: T -> bool, x: T, xs: seq<T>)
    ensures Filter(p, [x] + xs) == Filter(p, [x]) + Filter(p, xs)
  {
    FilterAppend(p, [x], xs);
  }

  lemma InsertRestStable<T(!new)>(less: (T, T) -> bool, p: T -> bool, x: T, xs: seq<T>)
    requires xs != [] && !less(x, xs[0])
    requires Filter(p, Insert(less, x, xs[1..])) == Filter(p, xs[1..]) + Filter(p, [x])
    ensures Filter(p, Insert(less, x, xs)) == Filter(p, xs) + Filter(p, [x])
  {
    FilterFirst(p, xs[0], Insert(less, x, xs[1..]));
    FilterFirst(p, xs[0], xs[1..]);
    assert xs == [xs[0]] + xs[1..];
  }

  lemma {:induction false} InsertStable<T(!new)>(
    less: (T, T) -> bool, p: T -> bool, x: T, xs: seq<T>)
    requires Tied(less, p) && StrictWeak(less) && Sorted(less, xs)
    ensures Filter(p, Insert(less, x, xs)) == Filter(p, xs) + Filter(p, [x])
  {
    if xs == [] {
      assert [x] + xs == [x];
      FilterAppend(p, xs, [x]);
    } else if less(x, xs[0]) {
      InsertFrontStable(less, p, x, xs);
    } else {
      InsertStable(less, p, x, xs[1..]);
      InsertRestStable(less, p, x, xs);
    }
  }

  /** Stability: the members of any tied class keep their input order. */
  lemma {:induction false} SortStable<T(!new)>(less: (T, T) -> bool, p: T -> bool, xs: seq<T>)
    requires Tied(less, p) && StrictWeak(less)
    ensures Filter(p, Sort(less, xs)) == Filter(p, xs)
  {
    if xs != [] {
      var n := |xs| - 1;
      SortStable(less, p, xs[..n]);
      SortSorted(less, xs[..n]);
      InsertStable(less, p, xs[n], Sort(less, xs[..n]));
    }
  }

  ghost predicate Ascending<T>(less: (T, T) -> bool, xs: seq<T>) {
    forall i, j :: 0 <= i < j < |xs| ==> less(xs[i], xs[j])
  }

  lemma AscendingHead<T(!new)>(less: (T, T) -> bool, xs: seq<T>, ys: seq<T>)
    requires Sorted(less, xs) && Ascending(less, ys) && Permutation(xs, ys) && xs != []
    ensures ys != [] && xs[0] == ys[0]
  {
    PermutationMembers(xs, ys);
    assert xs[0] in ys && ys[0] in xs;
    var k :| 0 <= k < |ys| && ys[k] == xs[0];
    var m :| 0 <= m < |xs| && xs[m] == ys[0];
    assert k > 0 ==> less(ys[0], xs[0]);
    assert m > 0 ==> !less(ys[0], xs[0]);
  }

  lemma PermutationRest<T>(xs: seq<T>, ys: seq<T>)
    requires Permutation(xs, ys) && xs != [] && ys != [] && xs[0] == ys[0]
    ensures Permutation(xs[1..], ys[1..])
  {
    MultisetTail(xs);
    MultisetTail(ys);
  }

  /** Elements that admit a strictly ascending arrangement sort to exactly that one. */
  lemma {:induction false} SortAscending<T(!new)>(less: (T, T) -> bool, xs: seq<T>, ys: seq<T>)
    requires Sorted(less, xs) && Ascending(less, ys) && Permutation(xs, ys)
    ensures xs == ys
  {
    PermutationMembers(xs, ys);
    if xs != [] {
      AscendingHead(less, xs, ys);
      PermutationRest(xs, ys);
      SortAscending(less, xs[1..], ys[1..]);
      assert xs == [xs[0]] + xs[1..] && ys == [ys[0]] + ys[1..];
    }
  }

  lemma SortedHeadUnique<T(!new)>(less: (T, T) -> bool, xs: seq<T>, ys: seq<T>)
    requires StrictTotal(less)
    requires Sorted(less, xs) && Sorted(less, ys) && Permutation(xs, ys) && xs != []
    ensures ys != [] && xs[0] == ys[0]
  {
    PermutationMembers(xs, ys);
    assert xs[0] in ys && ys[0] in xs;
    assert !less(xs[0], ys[0]) && !less(ys[0], xs[0]);
  }

  /** Under a total order a sorted list is determined by its elements. */
  lemma {:induction false} SortedUnique<T(!new)>(less: (T, T) -> bool, xs: seq<T>, ys: seq<T>)
    requires StrictTotal(less)
    requires Sorted(less, xs) && Sorted(less, ys) && Permutation(xs, ys)
    ensures xs == ys
  {
    PermutationMembers(xs, ys);
    if xs != [] {
      SortedHeadUnique(less, xs, ys);
      PermutationRest(xs, ys);
      SortedUnique(less, xs[1..], ys[1..]);
      assert xs == [xs[0]] + xs[1..] && ys == [ys[0]] + ys[1..];
    }
  }

  lemma PairSwap<T>(a: T, b: T)
    ensures Permutation([a, b], [b, a])
  {
    assert multiset([a, b]) == multiset{a, b} == multiset([b, a]);
  }

  lemma SwapFirst<T>(a: T, b: T, c: T)
    ensures Permutation([a, b, c], [b, a, c])
  {
    assert [a, b, c] == [a, b] + [c] && [b, a, c] == [b, a] + [c];
    PairSwap(a, b);
  }

  lemma SwapLast<T>(a: T, b: T, c: T)
    ensures Permutation([a, b, c], [a, c, b])
  {
    assert [a, b, c] == [a] + [b, c] && [a, c, b] == [a] + [c, b];
    PairSwap(b, c);
  }

  lemma TripleSwap<T>(a: T, b: T, c: T)
    ensures Permutation([a, b, c], [b, a, c]) && Permutation([a, b, c], [a, c, b])
    ensures Permutation([a, b, c], [c, b, a]) && Permutation([a, b, c], [b, c, a])
    ensures Permutation([a, b, c], [c, a, b])
  {
    SwapFirst(a, b, c);
    SwapLast(a, b, c);
    SwapLast(b, a, c);
    SwapFirst(a, c, b);
    SwapFirst(b, c, a);
  }

  /** Three different positions of a list, put in rising order. */
  lemma OrderTriple<T>(pool: seq<T>, x: nat, y: nat, z: nat) returns (i: nat, j: nat, k: nat)
    requires x < |pool| && y < |pool| && z < |pool| && x != y && y != z && x != z
    ensures i < j < k < |pool|
    ensures Permutation([pool[x], pool[y], pool[z]], [pool[i], pool[j], pool[k]])
  {
    TripleSwap(pool[x], pool[y], pool[z]);
    if x < y {
      if y < z { i, j, k := x, y, z; } else if x < z { i, j, k := x, z, y; } else { i, j, k := z, x, y; }
    } else {
      if x < z { i, j, k := y, x, z; } else if y < z { i, j, k := y, z, x; } else { i, j, k := z, y, x; }
    }
  }

  /** Elements that all tie are left alone. */
  lemma {:induction false} SortTied<T>(less: (T, T) -> bool, xs: seq<T>)
    requires forall i, j | 0 <= i < |xs| && 0 <= j < |xs| :: !less(xs[i], xs[j])
    ensures Sort(less, xs) == xs
  {
    if xs != [] {
      var n := |xs| - 1;
      SortTied(less, xs[..n]);
      InsertTied(less, xs[n], xs[..n]);
      assert xs == xs[..n] + [xs[n]];
    }
  }

  lemma {:induction false} InsertTied<T>(less: (T, T) -> bool, x: T, xs: seq<T>)
    requires forall i | 0 <= i < |xs| :: !less(x, xs[i])
    ensures Insert(less, x, xs) == xs + [x]
  {
    if xs != [] {
      InsertTied(less, x, xs[1..]);
      assert xs == [xs[0]] + xs[1..];
    }
  }
}
