/** An insertion-ordered dictionary of lists: `buckets.setdefault(key, []).append(row)`.
    The judgment buckets and the improvement clusters are both built with it. Grouping neither
    loses nor duplicates a row: each key holds exactly its own rows, in their order, and any
    total over the rows is the total over the groups. */
module Grouping {

  datatype Group<K, V> = Group(key: K, members: seq<V>)

  function Add<K(==), V>(groups: seq<Group<K, V>>, key: K, value: V): seq<Group<K, V>> {
    if groups == [] then [Group(key, [value])]
    else if groups[0].key == key then [Group(key, groups[0].members + [value])] + groups[1..]
    else [groups[0]] + Add(groups[1..], key, value)
  }

  /** The dictionary after every row has been appended in order. */
  function GroupBy<K(==), V>(rows: seq<V>, keyOf: V -> K): seq<Group<K, V>> {
    if rows == [] then []
    else Add(GroupBy(rows[..|rows| - 1], keyOf), keyOf(rows[|rows| - 1]), rows[|rows| - 1])
  }

  function Keys<K, V>(groups: seq<Group<K, V>>): set<K> {
    if groups == [] then {} else {groups[0].key} + Keys(groups[1..])
  }

  lemma {:induction false} KeysAt<K, V>(groups: seq<Group<K, V>>)
    ensures forall i | 0 <= i < |groups| :: groups[i].key in Keys(groups)
    ensures forall k :: k in Keys(groups) ==> exists i :: 0 <= i < |groups| && groups[i].key == k
  {
    if groups != [] {
      KeysAt(groups[1..]);
      forall k | k in Keys(groups) ensures exists i :: 0 <= i < |groups| && groups[i].key == k {
        if k == groups[0].key {
        } else {
          var i :| 0 <= i < |groups[1..]| && groups[1..][i].key == k;
          assert groups[i + 1].key == k;
        }
      }
    }
  }

  /** Each key once, and each group holds only members of its key. */
  ghost predicate WellFormed<K, V>(groups: seq<Group<K, V>>, keyOf: V -> K) {
    groups == [] ||
    (&& groups[0].key !in Keys(groups[1..])
     && groups[0].members != []
     && (forall m | 0 <= m < |groups[0].members| :: keyOf(groups[0].members[m]) == groups[0].key)
     && WellFormed(groups[1..], keyOf))
  }

  lemma {:induction false} WellFormedAt<K, V>(groups: seq<Group<K, V>>, keyOf: V -> K)
    requires WellFormed(groups, keyOf)
    ensures forall i, j | 0 <= i < j < |groups| :: groups[i].key != groups[j].key
    ensures forall i | 0 <= i < |groups| :: groups[i].members != []
    ensures forall i, m | 0 <= i < |groups| && 0 <= m < |groups[i].members| ::
              keyOf(groups[i].members[m]) == groups[i].key
  {
    if groups != [] {
      var rest := groups[1..];
      WellFormedAt(rest, keyOf);
      KeysAt(rest);
      assert groups == [groups[0]] + rest;
    }
  }

  lemma {:induction false} AddWellFormed<K, V>(groups: seq<Group<K, V>>, keyOf: V -> K, value: V)
    requires WellFormed(groups, keyOf)
    ensures WellFormed(Add(groups, keyOf(value), value), keyOf)
    ensures Keys(Add(groups, keyOf(value), value)) == Keys(groups) + {keyOf(value)}
  {
    if groups != [] && groups[0].key != keyOf(value) {
      AddWellFormed(groups[1..], keyOf, value);
    }
  }

  lemma {:induction false} GroupByWellFormed<K, V>(rows: seq<V>, keyOf: V -> K)
    ensures WellFormed(GroupBy(rows, keyOf), keyOf)
  {
    if rows != [] {
      var n := |rows| - 1;
      GroupByWellFormed(rows[..n], keyOf);
      AddWellFormed(GroupBy(rows[..n], keyOf), keyOf, rows[n]);
    }
  }

  /** Sum of a measure over rows, and over the groups. */
  function Total<V>(rows: seq<V>, measure: V -> real): real {
    if rows == [] then 0.0 else Total(rows[..|rows| - 1], measure) + measure(rows[|rows| - 1])
  }

  function GroupTotal<K, V>(groups: seq<Group<K, V>>, value: seq<V> -> real): real {
    if groups == [] then 0.0 else value(groups[0].members) + GroupTotal(groups[1..], value)
  }

  function TotalOf<V>(measure: V -> real): seq<V> -> real {
    (members: seq<V>) => Total(members, measure)
  }

  lemma TotalLast<V>(rows: seq<V>, row: V, measure: V -> real)
    ensures Total(rows + [row], measure) == Total(rows, measure) + measure(row)
  {
    assert (rows + [row])[..|rows|] == rows;
  }

  lemma GroupByLast<K, V>(rows: seq<V>, row: V, keyOf: V -> K)
    ensures GroupBy(rows + [row], keyOf) == Add(GroupBy(rows, keyOf), keyOf(row), row)
  {
    assert (rows + [row])[..|rows|] == rows;
  }

  lemma {:induction false} AddTotal<K, V>(
    groups: seq<Group<K, V>>, key: K, row: V, measure: V -> real)
    ensures GroupTotal(Add(groups, key, row), TotalOf(measure))
         == GroupTotal(groups, TotalOf(measure)) + measure(row)
  {
    if groups == [] {
      TotalLast([], row, measure);
      assert [] + [row] == [row];
    } else if groups[0].key == key {
      TotalLast(groups[0].members, row, measure);
    } else {
      AddTotal(groups[1..], key, row, measure);
    }
  }

  /** Grouping conserves every total. */
  lemma {:induction false} GroupByTotal<K, V>(rows: seq<V>, keyOf: V -> K, measure: V -> real)
    ensures GroupTotal(GroupBy(rows, keyOf), TotalOf(measure)) == Total(rows, measure)
  {
    if rows != [] {
      var n := |rows| - 1;
      GroupByTotal(rows[..n], keyOf, measure);
      AddTotal(GroupBy(rows[..n], keyOf), keyOf(rows[n]), rows[n], measure);
    }
  }

  lemma {:induction false} AddGroupAt<K, V>(
    groups: seq<Group<K, V>>, key: K, row: V, k: K)
    ensures MembersOf(Add(groups, key, row), k)
         == MembersOf(groups, k) + (if k == key then [row] else [])
  {
    if groups != [] && groups[0].key != key {
      AddGroupAt(groups[1..], key, row, k);
    }
  }

  /** The list under one key, empty when the key is absent. */
  function MembersOf<K(==), V>(groups: seq<Group<K, V>>, key: K): seq<V> {
    if groups == [] then []
    else if groups[0].key == key then groups[0].members
    else MembersOf(groups[1..], key)
  }

  /** The rows of one key, in their original order. */
  function RowsOf<K(==), V>(rows: seq<V>, keyOf: V -> K, key: K): seq<V> {
    if rows == [] then []
    else
      var n := |rows| - 1;
      RowsOf(rows[..n], keyOf, key) + (if keyOf(rows[n]) == key then [rows[n]] else [])
  }

  /** What the dictionary holds under a key is exactly the rows of that key, in order. */
  lemma {:induction false} GroupByMembers<K, V>(rows: seq<V>, keyOf: V -> K, key: K)
    ensures MembersOf(GroupBy(rows, keyOf), key) == RowsOf(rows, keyOf, key)
  {
    if rows != [] {
      var n := |rows| - 1;
      GroupByMembers(rows[..n], keyOf, key);
      AddGroupAt(GroupBy(rows[..n], keyOf), keyOf(rows[n]), rows[n], key);
    }
  }

  lemma {:induction false} MembersAt<K, V>(groups: seq<Group<K, V>>, keyOf: V -> K, i: nat)
    requires WellFormed(groups, keyOf) && i < |groups|
    ensures MembersOf(groups, groups[i].key) == groups[i].members
  {
    if i > 0 {
      WellFormedAt(groups, keyOf);
      MembersAt(groups[1..], keyOf, i - 1);
    }
  }
}
