/** Improvement clustering and promotion (src/trading/analytics/improvements.py,
    src/trading/analytics/hypothesis_promotion.py). */
module Promotion {
  import opened Wrappers
  import opened Grouping
  import opened Ordering

  datatype Status = Open | Clustered | Promoted | Implemented | Refused | Stale

  datatype Testability = Backtest | ShadowRule | ConfigChange | CodeChange | DataAcquisition | NotTestable

  datatype Record = Record(
    id: string, claimKey: string, area: string, status: Status, testable: Testability,
    occurrences: int, cost: real, openedAt: int)

  datatype Cluster = Cluster(
    claimKey: string, area: string, occurrences: int, cost: real, rank: real, recordIds: seq<string>)

  datatype Hypothesis = Hypothesis(cluster: Cluster, testable: Testability)

  datatype Outcome = Outcome(
    records: seq<Record>, clusters: seq<Cluster>, hypotheses: seq<Hypothesis>, notes: seq<Cluster>)

  predicate Terminal(s: Status) { s.Refused? || s.Stale? || s.Implemented? }

  predicate Active(r: Record) { !r.status.Refused? && !r.status.Stale? }

  // ------------------------------------------------------------------ clustering

  function ClaimOf(): Record -> string { (r: Record) => r.claimKey }

  function ActiveRows(records: seq<Record>): seq<Record> { Filter(Active, records) }

  function SumOccurrences(rows: seq<Record>): int {
    if rows == [] then 0 else SumOccurrences(rows[..|rows| - 1]) + rows[|rows| - 1].occurrences
  }

  function SumCost(rows: seq<Record>): real {
    if rows == [] then 0.0 else SumCost(rows[..|rows| - 1]) + rows[|rows| - 1].cost
  }

  function Ids(rows: seq<Record>): (ids: seq<string>)
    ensures |ids| == |rows| && forall i | 0 <= i < |rows| :: ids[i] == rows[i].id
  {
    seq(|rows|, i requires 0 <= i < |rows| => rows[i].id)
  }

  /** `max(group, key=(occurrences, opened_at))`: the first of the largest. */
  function Head(rows: seq<Record>): (h: Record)
    requires rows != []
    ensures h in rows
  {
    if |rows| == 1 then rows[0]
    else
      var best, last := Head(rows[..|rows| - 1]), rows[|rows| - 1];
      if last.occurrences > best.occurrences
         || (last.occurrences == best.occurrences && last.openedAt > best.openedAt)
      then last else best
  }

  function ClusterOf(key: string, rows: seq<Record>): Cluster
    requires rows != []
  {
    var occurrences, cost := SumOccurrences(rows), SumCost(rows);
    Cluster(key, Head(rows).area, occurrences, cost, occurrences as real * cost, Ids(rows))
  }

  function ClustersFrom(groups: seq<Group<string, Record>>): (clusters: seq<Cluster>)
    requires forall i | 0 <= i < |groups| :: groups[i].members != []
    ensures |clusters| == |groups|
    ensures forall i | 0 <= i < |groups| :: clusters[i] == ClusterOf(groups[i].key, groups[i].members)
  {
    seq(|groups|, i requires 0 <= i < |groups| => ClusterOf(groups[i].key, groups[i].members))
  }

  /** Rank score, then occurrences, both falling. */
  predicate Outranks(a: Cluster, b: Cluster) {
    a.rank > b.rank || (a.rank == b.rank && a.occurrences > b.occurrences)
  }

  function GroupsOf(records: seq<Record>): (groups: seq<Group<string, Record>>)
    ensures WellFormed(groups, ClaimOf())
  {
    GroupByWellFormed(ActiveRows(records), ClaimOf());
    GroupBy(ActiveRows(records), ClaimOf())
  }

  function ClustersOf(records: seq<Record>): seq<Cluster> {
    WellFormedAt(GroupsOf(records), ClaimOf());
    Sort(Outranks, ClustersFrom(GroupsOf(records)))
  }

  method BucketRows(records: seq<Record>) returns (buckets: seq<Group<string, Record>>)
    ensures buckets == GroupsOf(records)
  {
    buckets := [];
    for i := 0 to |records|
      invariant buckets == GroupBy(ActiveRows(records[..i]), ClaimOf())
    {
      assert records[..i + 1][..i] == records[..i];
      if Active(records[i]) {
        GroupByLast(ActiveRows(records[..i]), records[i], ClaimOf());
        buckets := Add(buckets, records[i].claimKey, records[i]);
      }
    }
    assert records[..|records|] == records;
  }

  method BuildClusters(buckets: seq<Group<string, Record>>) returns (clusters: seq<Cluster>)
    requires forall i | 0 <= i < |buckets| :: buckets[i].members != []
    ensures clusters == ClustersFrom(buckets)
  {
    clusters := [];
    ghost var all := ClustersFrom(buckets);
    for i := 0 to |buckets|
      invariant clusters == all[..i]
    {
      clusters := clusters + [ClusterOf(buckets[i].key, buckets[i].members)];
      assert all[..i + 1] == all[..i] + [all[i]];
    }
  }

  method ClusterImprovements(records: seq<Record>) returns (clusters: seq<Cluster>)
    ensures clusters == ClustersOf(records)
  {
    var buckets := BucketRows(records);
    WellFormedAt(buckets, ClaimOf());
    clusters := BuildClusters(buckets);
    clusters := Sort(Outranks, clusters);
  }

  /** A refused or stale record counts for nothing: without it the clusters are the same. */
  lemma RefusedRowsCountForNothing(before: seq<Record>, r: Record, after: seq<Record>)
    requires r.status.Refused? || r.status.Stale?
    ensures ClustersOf(before + [r] + after) == ClustersOf(before + after)
  {
    FilterAppend(Active, before, [r]);
    FilterAppend(Active, before + [r], after);
    FilterAppend(Active, before, after);
    FilterNone(Active, [r]);
  }

  lemma OutranksIsStrict()
    ensures StrictWeak(Outranks)
  {
  }

  /** The clusters come out in falling rank, and among equal ranks the claim seen more often first. */
  lemma ClustersFallInRank(records: seq<Record>, i: nat, j: nat)
    requires i < j < |ClustersOf(records)|
    ensures ClustersOf(records)[i].rank >= ClustersOf(records)[j].rank
    ensures ClustersOf(records)[i].rank == ClustersOf(records)[j].rank ==>
              ClustersOf(records)[i].occurrences >= ClustersOf(records)[j].occurrences
  {
    WellFormedAt(GroupsOf(records), ClaimOf());
    OutranksIsStrict();
    SortSorted(Outranks, ClustersFrom(GroupsOf(records)));
  }

  /** The active rows behind one claim. */
  function RowsFor(records: seq<Record>, key: string): seq<Record> {
    RowsOf(ActiveRows(records), ClaimOf(), key)
  }

  lemma ClusterIsClaim(records: seq<Record>, c: Cluster)
    requires c in ClustersOf(records)
    ensures RowsFor(records, c.claimKey) != [] && c == ClusterOf(c.claimKey, RowsFor(records, c.claimKey))
  {
    var groups := GroupsOf(records);
    WellFormedAt(groups, ClaimOf());
    var unsorted := ClustersFrom(groups);
    SortPermutes(Outranks, unsorted);
    var i :| 0 <= i < |groups| && unsorted[i] == c;
    MembersAt(groups, ClaimOf(), i);
    GroupByMembers(ActiveRows(records), ClaimOf(), c.claimKey);
  }

  /** Every other record of a claim counts for its cluster. */
  lemma OtherRowsCount(records: seq<Record>, c: Cluster, r: Record)
    requires c in ClustersOf(records) && r in records && r.claimKey == c.claimKey
    requires !(r.status.Refused? || r.status.Stale?)
    ensures r in RowsFor(records, c.claimKey) && r.id in c.recordIds
  {
    ClusterIsClaim(records, c);
    FilterMembers(Active, records);
    RowsOfMembers(ActiveRows(records), c.claimKey);
    var rows := RowsFor(records, c.claimKey);
    var i :| 0 <= i < |rows| && rows[i] == r;
    assert Ids(rows)[i] == r.id;
  }

  /** The head leads by occurrences and then by the later opening, and is the first that does. */
  lemma {:induction false} HeadLeads(rows: seq<Record>) returns (k: nat)
    requires rows != []
    ensures k < |rows| && rows[k] == Head(rows)
    ensures forall j | 0 <= j < |rows| ::
              || rows[j].occurrences < rows[k].occurrences
              || (rows[j].occurrences == rows[k].occurrences
                    && (if j < k then rows[j].openedAt < rows[k].openedAt else rows[j].openedAt <= rows[k].openedAt))
  {
    var n := |rows| - 1;
    k := n;
    if n > 0 {
      var j := HeadLeads(rows[..n]);
      if Head(rows[..n]) == Head(rows) && !(rows[n].occurrences > rows[j].occurrences
         || (rows[n].occurrences == rows[j].occurrences && rows[n].openedAt > rows[j].openedAt)) {
        k := j;
      }
    }
  }

  /** What a cluster reports: its cost and its occurrences grow by each row's own, and the rank weighs one
      by the other. */
  lemma ClusterFigures(key: string, rows: seq<Record>, r: Record)
    requires rows != []
    ensures var c, more := ClusterOf(key, rows), ClusterOf(key, rows + [r]);
            && more.occurrences == c.occurrences + r.occurrences && more.cost == c.cost + r.cost
            && more.rank == more.occurrences as real * more.cost
  {
    SumsGrow(rows, r);
  }

  lemma SumsGrow(rows: seq<Record>, r: Record)
    ensures SumOccurrences(rows + [r]) == SumOccurrences(rows) + r.occurrences
    ensures SumCost(rows + [r]) == SumCost(rows) + r.cost
  {
    assert (rows + [r])[..|rows|] == rows;
  }

  lemma ClusterOfOne(key: string, r: Record)
    ensures ClusterOf(key, [r]).occurrences == r.occurrences && ClusterOf(key, [r]).cost == r.cost
    ensures ClusterOf(key, [r]).area == r.area
  {
    SumsGrow([], r);
    assert [] + [r] == [r];
  }

  lemma ClaimHasCluster(records: seq<Record>, key: string)
    requires RowsFor(records, key) != []
    ensures ClusterOf(key, RowsFor(records, key)) in ClustersOf(records)
  {
    var groups := GroupsOf(records);
    WellFormedAt(groups, ClaimOf());
    var unsorted := ClustersFrom(groups);
    SortPermutes(Outranks, unsorted);
    GroupByMembers(ActiveRows(records), ClaimOf(), key);
    var i := GroupOfMembers(groups, key);
    assert unsorted[i] == ClusterOf(key, RowsFor(records, key));
  }

  /** The clusters are exactly one per claim with active rows, holding those rows in order. */
  lemma ClustersAreTheClaims(records: seq<Record>)
    ensures forall c | c in ClustersOf(records) ::
              RowsFor(records, c.claimKey) != [] && c == ClusterOf(c.claimKey, RowsFor(records, c.claimKey))
    ensures forall key | RowsFor(records, key) != [] ::
              ClusterOf(key, RowsFor(records, key)) in ClustersOf(records)
  {
    forall c | c in ClustersOf(records)
      ensures RowsFor(records, c.claimKey) != [] && c == ClusterOf(c.claimKey, RowsFor(records, c.claimKey))
    {
      ClusterIsClaim(records, c);
    }
    forall key | RowsFor(records, key) != []
      ensures ClusterOf(key, RowsFor(records, key)) in ClustersOf(records)
    {
      ClaimHasCluster(records, key);
    }
  }

  lemma {:induction false} GroupOfMembers<K, V>(groups: seq<Group<K, V>>, key: K) returns (i: nat)
    requires MembersOf(groups, key) != []
    ensures i < |groups| && groups[i].key == key && groups[i].members == MembersOf(groups, key)
  {
    if groups[0].key == key {
      i := 0;
    } else {
      i := GroupOfMembers(groups[1..], key);
      i := i + 1;
    }
  }

  lemma {:induction false} RowsOfMembers(rows: seq<Record>, key: string)
    ensures forall r :: r in RowsOf(rows, ClaimOf(), key) <==> r in rows && r.claimKey == key
  {
    if rows != [] {
      var n := |rows| - 1;
      RowsOfMembers(rows[..n], key);
      assert rows == rows[..n] + [rows[n]];
    }
  }

  lemma RowsForMembers(records: seq<Record>, key: string)
    ensures forall r :: r in RowsFor(records, key) <==> r in records && Active(r) && r.claimKey == key
  {
    FilterMembers(Active, records);
    RowsOfMembers(ActiveRows(records), key);
  }

  // ---------------------------------------------------- conservation of occurrences

  function SumClusters(clusters: seq<Cluster>): int {
    if clusters == [] then 0 else clusters[0].occurrences + SumClusters(clusters[1..])
  }

  lemma {:induction false} InsertKeepsSum(c: Cluster, clusters: seq<Cluster>)
    ensures SumClusters(Insert(Outranks, c, clusters)) == c.occurrences + SumClusters(clusters)
  {
    if clusters != [] && !Outranks(c, clusters[0]) { InsertKeepsSum(c, clusters[1..]); }
  }

  lemma {:induction false} SumClustersLast(clusters: seq<Cluster>)
    requires clusters != []
    ensures SumClusters(clusters)
         == SumClusters(clusters[..|clusters| - 1]) + clusters[|clusters| - 1].occurrences
  {
    var n := |clusters| - 1;
    if n > 0 {
      SumClustersLast(clusters[1..]);
      assert clusters[1..][..n - 1] == clusters[..n][1..];
    }
  }

  lemma {:induction false} SortKeepsSum(clusters: seq<Cluster>)
    ensures SumClusters(Sort(Outranks, clusters)) == SumClusters(clusters)
  {
    if clusters != [] {
      var n := |clusters| - 1;
      SortKeepsSum(clusters[..n]);
      InsertKeepsSum(clusters[n], Sort(Outranks, clusters[..n]));
      SumClustersLast(clusters);
    }
  }

  function OccurrencesReal(): Record -> real { (r: Record) => r.occurrences as real }

  lemma {:induction false} SumOccurrencesIsTotal(rows: seq<Record>)
    ensures SumOccurrences(rows) as real == Total(rows, OccurrencesReal())
  {
    if rows != [] { SumOccurrencesIsTotal(rows[..|rows| - 1]); }
  }

  lemma {:induction false} SumClustersIsGroupTotal(groups: seq<Group<string, Record>>)
    requires WellFormed(groups, ClaimOf())
    requires forall i | 0 <= i < |groups| :: groups[i].members != []
    ensures SumClusters(ClustersFrom(groups)) as real == GroupTotal(groups, TotalOf(OccurrencesReal()))
  {
    if groups != [] {
      SumClustersIsGroupTotal(groups[1..]);
      SumOccurrencesIsTotal(groups[0].members);
      assert ClustersFrom(groups)[1..] == ClustersFrom(groups[1..]);
    }
  }

  /** No occurrence is lost or counted twice by clustering. */
  lemma OccurrencesConserved(records: seq<Record>)
    ensures SumClusters(ClustersOf(records)) == SumOccurrences(ActiveRows(records))
  {
    var groups := GroupsOf(records);
    WellFormedAt(groups, ClaimOf());
    SortKeepsSum(ClustersFrom(groups));
    SumClustersIsGroupTotal(groups);
    GroupByTotal(ActiveRows(records), ClaimOf(), OccurrencesReal());
    SumOccurrencesIsTotal(ActiveRows(records));
  }

  // -------------------------------------------------------------------- promotion

  function ClusteredIds(clusters: seq<Cluster>): set<string> {
    set i, m | 0 <= i < |clusters| && 0 <= m < |clusters[i].recordIds| :: clusters[i].recordIds[m]
  }

  function Mark(row: Record, ids: set<string>): Record {
    if row.id in ids && row.status.Open? then row.(status := Clustered) else row
  }

  function MarkAll(rows: seq<Record>, ids: set<string>): (out: seq<Record>)
    ensures |out| == |rows| && forall i | 0 <= i < |rows| :: out[i] == Mark(rows[i], ids)
  {
    seq(|rows|, i requires 0 <= i < |rows| => Mark(rows[i], ids))
  }

  /** `{r.record_id: r for r in records}[id]`: the last row of that id. */
  function ById(rows: seq<Record>, id: string): Option<Record> {
    if rows == [] then None
    else if rows[|rows| - 1].id == id then Some(rows[|rows| - 1])
    else ById(rows[..|rows| - 1], id)
  }

  predicate Supports(row: Record) { !row.testable.NotTestable? && !Terminal(row.status) }

  /** The kind of the first supporting row named by the ids. */
  function FirstTestable(ids: seq<string>, rows: seq<Record>): Option<Testability> {
    if ids == [] then None
    else
      match ById(rows, ids[0])
      case None => FirstTestable(ids[1..], rows)
      case Some(row) => if Supports(row) then Some(row.testable) else FirstTestable(ids[1..], rows)
  }

  /** A cluster's own status is always CLUSTERED, so only recurrence and support decide. */
  function HypothesisOf(c: Cluster, rows: seq<Record>, min: int): Option<Hypothesis> {
    if c.occurrences < min then None
    else
      match FirstTestable(c.recordIds, rows)
      case None => None
      case Some(kind) => Some(Hypothesis(c, kind))
  }

  function Eligible(rows: seq<Record>, min: int): Cluster -> bool {
    (c: Cluster) => HypothesisOf(c, rows, min).Some?
  }

  /** `d[id] = max(d.get(id, 0), occurrences)` for every id of one cluster. */
  function Bump(seen: map<string, int>, ids: seq<string>, occurrences: int): map<string, int> {
    if ids == [] then seen
    else
      var n := |ids| - 1;
      var before := Bump(seen, ids[..n], occurrences);
      var prior := if ids[n] in before then before[ids[n]] else 0;
      before[ids[n] := if occurrences > prior then occurrences else prior]
  }

  function OccurrenceByRecord(clusters: seq<Cluster>): map<string, int> {
    if clusters == [] then map[]
    else
      var n := |clusters| - 1;
      Bump(OccurrenceByRecord(clusters[..n]), clusters[n].recordIds, clusters[n].occurrences)
  }

  /** `hypothesis_eligible` on one record. */
  predicate RecordEligible(row: Record, min: int) {
    row.occurrences >= min && !row.testable.NotTestable? && !Terminal(row.status)
  }

  function Finish(row: Record, promoted: set<string>, seen: map<string, int>, min: int): Record {
    if row.id !in promoted then row
    else
      var floor := if row.id in seen then seen[row.id] else row.occurrences;
      var bumped := row.(occurrences := if floor > row.occurrences then floor else row.occurrences);
      if RecordEligible(bumped, min) then bumped.(status := Promoted) else row
  }

  function FinishAll(rows: seq<Record>, promoted: set<string>, seen: map<string, int>, min: int)
    : (out: seq<Record>)
    ensures |out| == |rows|
    ensures forall i | 0 <= i < |rows| :: out[i] == Finish(rows[i], promoted, seen, min)
  {
    seq(|rows|, i requires 0 <= i < |rows| => Finish(rows[i], promoted, seen, min))
  }

  function Promote(records: seq<Record>, min: int): (out: seq<Record>)
    ensures |out| == |records|
  {
    var clusters := ClustersOf(records);
    var rows := MarkAll(records, ClusteredIds(clusters));
    var promoted := ClusteredIds(Filter(Eligible(rows, min), clusters));
    FinishAll(rows, promoted, OccurrenceByRecord(clusters), min)
  }

  // ------------------------------------------------------------- the loops, refined

  method OccurrenceLoop(clusters: seq<Cluster>) returns (seen: map<string, int>)
    ensures seen == OccurrenceByRecord(clusters)
  {
    seen := map[];
    for i := 0 to |clusters|
      invariant seen == OccurrenceByRecord(clusters[..i])
    {
      ghost var before := seen;
      var ids := clusters[i].recordIds;
      for m := 0 to |ids|
        invariant seen == Bump(before, ids[..m], clusters[i].occurrences)
      {
        var prior := if ids[m] in seen then seen[ids[m]] else 0;
        assert ids[..m + 1][..m] == ids[..m];
        seen := seen[ids[m] := if clusters[i].occurrences > prior then clusters[i].occurrences else prior];
      }
      assert ids[..|ids|] == ids && clusters[..i + 1][..i] == clusters[..i];
    }
    assert clusters[..|clusters|] == clusters;
  }

  function Hypotheses(clusters: seq<Cluster>, rows: seq<Record>, min: int): seq<Hypothesis> {
    if clusters == [] then []
    else
      var n := |clusters| - 1;
      var rest, last := Hypotheses(clusters[..n], rows, min), HypothesisOf(clusters[n], rows, min);
      if last.Some? then rest + [last.value] else rest
  }

  function Ineligible(rows: seq<Record>, min: int): Cluster -> bool {
    (c: Cluster) => HypothesisOf(c, rows, min).None?
  }

  method SplitLoop(clusters: seq<Cluster>, rows: seq<Record>, min: int)
    returns (hypotheses: seq<Hypothesis>, notes: seq<Cluster>, promoted: set<string>)
    ensures hypotheses == Hypotheses(clusters, rows, min)
    ensures notes == Filter(Ineligible(rows, min), clusters)
    ensures promoted == ClusteredIds(Filter(Eligible(rows, min), clusters))
  {
    hypotheses, notes, promoted := [], [], {};
    for i := 0 to |clusters|
      invariant hypotheses == Hypotheses(clusters[..i], rows, min)
      invariant notes == Filter(Ineligible(rows, min), clusters[..i])
      invariant promoted == ClusteredIds(Filter(Eligible(rows, min), clusters[..i]))
    {
      assert clusters[..i + 1][..i] == clusters[..i];
      var hypothesis := HypothesisOf(clusters[i], rows, min);
      if hypothesis.None? {
        notes := notes + [clusters[i]];
      } else {
        ClusteredIdsLast(Filter(Eligible(rows, min), clusters[..i]), clusters[i]);
        hypotheses := hypotheses + [hypothesis.value];
        promoted := promoted + (set id | id in clusters[i].recordIds);
      }
    }
    assert clusters[..|clusters|] == clusters;
  }

  lemma ClusteredIdsAt(clusters: seq<Cluster>, id: string)
    ensures id in ClusteredIds(clusters) <==> exists c :: c in clusters && id in c.recordIds
  {
    if id in ClusteredIds(clusters) {
      var i, m :| 0 <= i < |clusters| && 0 <= m < |clusters[i].recordIds| && clusters[i].recordIds[m] == id;
      assert clusters[i] in clusters && id in clusters[i].recordIds;
    }
    if c :| c in clusters && id in c.recordIds {
      var i :| 0 <= i < |clusters| && clusters[i] == c;
      var m :| 0 <= m < |c.recordIds| && c.recordIds[m] == id;
      assert clusters[i].recordIds[m] == id;
    }
  }

  lemma ClusteredIdsLast(clusters: seq<Cluster>, c: Cluster)
    ensures ClusteredIds(clusters + [c]) == ClusteredIds(clusters) + (set id | id in c.recordIds)
  {
    forall id ensures id in ClusteredIds(clusters + [c]) <==>
                        id in ClusteredIds(clusters) || id in c.recordIds
    {
      ClusteredIdsAt(clusters + [c], id);
      ClusteredIdsAt(clusters, id);
    }
  }

  method MarkLoop(records: seq<Record>, ids: set<string>) returns (rows: seq<Record>)
    ensures rows == MarkAll(records, ids)
  {
    rows := [];
    for i := 0 to |records|
      invariant |rows| == i && forall k | 0 <= k < i :: rows[k] == Mark(records[k], ids)
    {
      rows := rows + [Mark(records[i], ids)];
    }
  }

  method FinishLoop(rows: seq<Record>, promoted: set<string>, seen: map<string, int>, min: int)
    returns (final: seq<Record>)
    ensures final == FinishAll(rows, promoted, seen, min)
  {
    final := [];
    for i := 0 to |rows|
      invariant |final| == i && forall k | 0 <= k < i :: final[k] == Finish(rows[k], promoted, seen, min)
    {
      final := final + [Finish(rows[i], promoted, seen, min)];
    }
  }

  method PromoteImprovements(records: seq<Record>, min: int) returns (out: Outcome)
    ensures out.records == Promote(records, min)
    ensures out.clusters == ClustersOf(records)
    ensures var rows := MarkAll(records, ClusteredIds(out.clusters));
            && out.hypotheses == Hypotheses(out.clusters, rows, min)
            && out.notes == Filter(Ineligible(rows, min), out.clusters)
  {
    var clusters := ClusterImprovements(records);
    var rows := MarkLoop(records, ClusteredIds(clusters));
    var seen := OccurrenceLoop(clusters);
    var hypotheses, notes, promoted := SplitLoop(clusters, rows, min);
    var final := FinishLoop(rows, promoted, seen, min);
    out := Outcome(final, clusters, hypotheses, notes);
  }

  lemma {:induction false} HypothesesFollow(clusters: seq<Cluster>, rows: seq<Record>, min: int)
    ensures |Hypotheses(clusters, rows, min)| == |Filter(Eligible(rows, min), clusters)|
    ensures forall i | 0 <= i < |Hypotheses(clusters, rows, min)| ::
              Hypotheses(clusters, rows, min)[i].cluster == Filter(Eligible(rows, min), clusters)[i]
  {
    if clusters != [] { HypothesesFollow(clusters[..|clusters| - 1], rows, min); }
  }

  /** Every cluster is either the basis of one hypothesis or a note. */
  lemma HypothesesAndNotesPartition(clusters: seq<Cluster>, rows: seq<Record>, min: int)
    ensures |Hypotheses(clusters, rows, min)| == |Filter(Eligible(rows, min), clusters)|
    ensures forall i | 0 <= i < |Hypotheses(clusters, rows, min)| ::
              Hypotheses(clusters, rows, min)[i].cluster == Filter(Eligible(rows, min), clusters)[i]
    ensures multiset(Filter(Eligible(rows, min), clusters)) + multiset(Filter(Ineligible(rows, min), clusters))
         == multiset(clusters)
  {
    HypothesesFollow(clusters, rows, min);
    var eligible, ineligible := Eligible(rows, min), Ineligible(rows, min);
    forall c: Cluster
      ensures (multiset(Filter(eligible, clusters)) + multiset(Filter(ineligible, clusters)))[c]
           == multiset(clusters)[c]
    {
      FilterCount(eligible, clusters, c);
      FilterCount(ineligible, clusters, c);
    }
  }

  // -------------------------------------------------- what promotion does to one record

  /** Record ids are the primary key of the store (src/trading/storage/schema.sql:178), and every
      record counts at least one occurrence. The store also keeps one row per area and claim
      (schema.sql:189-190), which `promote_improvements` does not ask of its callers: rows of one claim
      may still differ in area, or come from elsewhere. */
  ghost predicate Stored(records: seq<Record>) {
    && (forall i, j | 0 <= i < j < |records| :: records[i].id != records[j].id)
    && (forall i | 0 <= i < |records| :: records[i].occurrences >= 1)
  }

  /** A claim is promoted when it recurs often enough and one of its rows supports it. */
  ghost predicate ClaimPromoted(records: seq<Record>, key: string, min: int) {
    && SumOccurrences(RowsFor(records, key)) >= min
    && exists r :: r in RowsFor(records, key) && Supports(r)
  }

  /** The declarative account of one pass on one record. */
  ghost function After(records: seq<Record>, min: int, r: Record): Record {
    if !Active(r) then r
    else if ClaimPromoted(records, r.claimKey, min) && Supports(r) then
      var sum := SumOccurrences(RowsFor(records, r.claimKey));
      r.(status := Promoted, occurrences := if sum > r.occurrences then sum else r.occurrences)
    else if r.status.Open? then r.(status := Clustered)
    else r
  }

  /** A stored row belongs to a cluster exactly when it is active and the claim is its own. */
  lemma RowInCluster(records: seq<Record>, r: Record, c: Cluster)
    requires Stored(records) && r in records && c in ClustersOf(records)
    ensures r.id in c.recordIds <==> Active(r) && c.claimKey == r.claimKey
    ensures c.occurrences == SumOccurrences(RowsFor(records, c.claimKey))
    ensures c.recordIds == Ids(RowsFor(records, c.claimKey))
  {
    ClustersAreTheClaims(records);
    RowsForMembers(records, c.claimKey);
    if r.id in c.recordIds {
      var q :| q in RowsFor(records, c.claimKey) && q.id == r.id;
    }
  }

  lemma ActiveRowHasCluster(records: seq<Record>, r: Record) returns (c: Cluster)
    requires r in records && Active(r)
    ensures c in ClustersOf(records) && c.claimKey == r.claimKey
  {
    ClustersAreTheClaims(records);
    RowsForMembers(records, r.claimKey);
    c := ClusterOf(r.claimKey, RowsFor(records, r.claimKey));
  }

  lemma MarkedIffActive(records: seq<Record>, r: Record)
    requires Stored(records) && r in records
    ensures r.id in ClusteredIds(ClustersOf(records)) <==> Active(r)
  {
    var clusters := ClustersOf(records);
    ClusteredIdsAt(clusters, r.id);
    if r.id in ClusteredIds(clusters) {
      var c :| c in clusters && r.id in c.recordIds;
      RowInCluster(records, r, c);
    }
    if Active(r) {
      var c := ActiveRowHasCluster(records, r);
      RowInCluster(records, r, c);
    }
  }

  lemma {:induction false} ByIdFinds(rows: seq<Record>, i: nat)
    requires i < |rows| && forall x, y | 0 <= x < y < |rows| :: rows[x].id != rows[y].id
    ensures ById(rows, rows[i].id) == Some(rows[i])
  {
    var n := |rows| - 1;
    if i < n { ByIdFinds(rows[..n], i); }
  }

  /** Marking a row as clustered never changes whether it supports its claim. */
  lemma MarkedRow(records: seq<Record>, r: Record, ids: set<string>)
    requires Stored(records) && r in records
    ensures ById(MarkAll(records, ids), r.id) == Some(Mark(r, ids))
    ensures Supports(Mark(r, ids)) <==> Supports(r)
  {
    var i :| 0 <= i < |records| && records[i] == r;
    ByIdFinds(MarkAll(records, ids), i);
  }

  lemma {:induction false} FirstTestableFinds(records: seq<Record>, ids: set<string>, rows: seq<Record>)
    requires Stored(records) && forall r | r in rows :: r in records
    ensures FirstTestable(Ids(rows), MarkAll(records, ids)).Some? <==>
              exists r :: r in rows && Supports(r)
  {
    if rows != [] {
      assert Ids(rows)[1..] == Ids(rows[1..]);
      MarkedRow(records, rows[0], ids);
      FirstTestableFinds(records, ids, rows[1..]);
      assert forall r :: r in rows <==> r == rows[0] || r in rows[1..];
    }
  }

  lemma EligibleIffClaimPromoted(records: seq<Record>, c: Cluster, ids: set<string>, min: int)
    requires Stored(records) && c in ClustersOf(records)
    ensures Eligible(MarkAll(records, ids), min)(c) <==> ClaimPromoted(records, c.claimKey, min)
  {
    ClustersAreTheClaims(records);
    RowsForMembers(records, c.claimKey);
    FirstTestableFinds(records, ids, RowsFor(records, c.claimKey));
  }

  /** A row is in the promoted set exactly when it is active and its claim is promoted. */
  lemma PromotedIffClaim(records: seq<Record>, r: Record, ids: set<string>, min: int)
    requires Stored(records) && r in records
    ensures r.id in ClusteredIds(Filter(Eligible(MarkAll(records, ids), min), ClustersOf(records)))
       <==> Active(r) && ClaimPromoted(records, r.claimKey, min)
  {
    var clusters, eligible := ClustersOf(records), Eligible(MarkAll(records, ids), min);
    FilterMembers(eligible, clusters);
    ClusteredIdsAt(Filter(eligible, clusters), r.id);
    if c :| c in Filter(eligible, clusters) && r.id in c.recordIds {
      RowInCluster(records, r, c);
      EligibleIffClaimPromoted(records, c, ids, min);
    }
    if Active(r) && ClaimPromoted(records, r.claimKey, min) {
      var c := ActiveRowHasCluster(records, r);
      RowInCluster(records, r, c);
      EligibleIffClaimPromoted(records, c, ids, min);
    }
  }

  lemma {:induction false} BumpAt(seen: map<string, int>, ids: seq<string>, occurrences: int, id: string)
    requires occurrences >= 0
    ensures id !in ids ==> (id in Bump(seen, ids, occurrences) <==> id in seen)
    ensures id !in ids && id in seen ==> Bump(seen, ids, occurrences)[id] == seen[id]
    ensures id in ids ==> id in Bump(seen, ids, occurrences)
    ensures id in ids && (id in seen ==> 0 <= seen[id] <= occurrences) ==>
              Bump(seen, ids, occurrences)[id] == occurrences
    ensures id in seen && 0 <= seen[id] <= occurrences && id in Bump(seen, ids, occurrences) ==>
              0 <= Bump(seen, ids, occurrences)[id] <= occurrences
  {
    if ids != [] {
      var n := |ids| - 1;
      BumpAt(seen, ids[..n], occurrences, id);
      assert ids == ids[..n] + [ids[n]];
    }
  }

  /** When every cluster naming a record has the same size, the map holds that size. */
  lemma {:induction false} OccurrenceAt(clusters: seq<Cluster>, id: string, size: int)
    requires size >= 0
    requires forall i | 0 <= i < |clusters| :: clusters[i].occurrences >= 0
    requires forall i | 0 <= i < |clusters| && id in clusters[i].recordIds :: clusters[i].occurrences == size
    ensures id in OccurrenceByRecord(clusters) <==>
              exists i :: 0 <= i < |clusters| && id in clusters[i].recordIds
    ensures id in OccurrenceByRecord(clusters) ==> OccurrenceByRecord(clusters)[id] == size
  {
    if clusters != [] {
      var n := |clusters| - 1;
      OccurrenceAt(clusters[..n], id, size);
      BumpAt(OccurrenceByRecord(clusters[..n]), clusters[n].recordIds, clusters[n].occurrences, id);
    }
  }

  lemma {:induction false} SumAtLeast(rows: seq<Record>)
    requires forall i | 0 <= i < |rows| :: rows[i].occurrences >= 1
    ensures SumOccurrences(rows) >= |rows|
  {
    if rows != [] { SumAtLeast(rows[..|rows| - 1]); }
  }

  lemma ClusterSize(records: seq<Record>, r: Record, c: Cluster)
    requires Stored(records) && r in records && c in ClustersOf(records)
    ensures c.occurrences >= 0
    ensures r.id in c.recordIds ==> c.occurrences == SumOccurrences(RowsFor(records, r.claimKey))
  {
    RowInCluster(records, r, c);
    RowsForMembers(records, c.claimKey);
    SumAtLeast(RowsFor(records, c.claimKey));
  }

  lemma SeenIsClaimSize(records: seq<Record>, r: Record)
    requires Stored(records) && r in records && Active(r)
    ensures r.id in OccurrenceByRecord(ClustersOf(records))
    ensures OccurrenceByRecord(ClustersOf(records))[r.id] == SumOccurrences(RowsFor(records, r.claimKey))
  {
    var clusters := ClustersOf(records);
    var c := ActiveRowHasCluster(records, r);
    RowInCluster(records, r, c);
    forall i | 0 <= i < |clusters|
      ensures clusters[i].occurrences >= 0
      ensures r.id in clusters[i].recordIds ==> clusters[i].occurrences == c.occurrences
    {
      ClusterSize(records, r, clusters[i]);
    }
    ClusterSize(records, r, c);
    OccurrenceAt(clusters, r.id, c.occurrences);
    var i :| 0 <= i < |clusters| && clusters[i] == c;
  }

  /** The pipeline of sets, dictionaries and loops does to each record exactly what `After` says. */
  lemma PromotionPointwise(records: seq<Record>, min: int, i: nat)
    requires Stored(records) && i < |records|
    ensures Promote(records, min)[i] == After(records, min, records[i])
  {
    var r, ids := records[i], ClusteredIds(ClustersOf(records));
    MarkedIffActive(records, r);
    MarkedRow(records, r, ids);
    PromotedIffClaim(records, r, ids, min);
    if Active(r) { SeenIsClaimSize(records, r); }
  }

  // -------------------------------------------------------------- properties of one pass

  /** The moves a pass may make: on from open to clustered or promoted, from clustered to promoted. */
  predicate Advances(before: Status, after: Status) {
    || after == before
    || (before.Open? && after.Clustered?)
    || ((before.Open? || before.Clustered?) && after.Promoted?)
  }

  /** Ids, claims and everything but status and occurrences are kept, in order; terminal records
      are untouched; a status only advances and no count shrinks. Needs no assumption on the ids. */
  lemma PassKeepsRecords(records: seq<Record>, min: int, i: nat)
    requires i < |records|
    ensures var r, out := records[i], Promote(records, min)[i];
            && out == r.(status := out.status, occurrences := out.occurrences)
            && (Terminal(r.status) ==> out == r)
            && Advances(r.status, out.status)
            && out.occurrences >= r.occurrences
            && (Terminal(out.status) <==> Terminal(r.status))
  {
  }

  /** An active record of a promoted claim ends PROMOTED exactly when it is testable and not
      terminal, or was promoted before. */
  lemma PromotedExactly(records: seq<Record>, min: int, i: nat)
    requires Stored(records) && i < |records|
    ensures Promote(records, min)[i].status.Promoted? <==>
              || records[i].status.Promoted?
              || (ClaimPromoted(records, records[i].claimKey, min) && Supports(records[i]))
  {
    PromotionPointwise(records, min, i);
  }

  ghost function AfterOf(records: seq<Record>, min: int): Record -> Record {
    (r: Record) => After(records, min, r)
  }

  ghost function Image(f: Record -> Record, rows: seq<Record>): (out: seq<Record>)
    ensures |out| == |rows| && forall i | 0 <= i < |rows| :: out[i] == f(rows[i])
  {
    seq(|rows|, i requires 0 <= i < |rows| => f(rows[i]))
  }

  lemma {:induction false} ImageRows(f: Record -> Record, rows: seq<Record>, key: string)
    requires forall r :: (Active(f(r)) <==> Active(r)) && f(r).claimKey == r.claimKey
    ensures ActiveRows(Image(f, rows)) == Image(f, ActiveRows(rows))
    ensures RowsOf(Image(f, rows), ClaimOf(), key) == Image(f, RowsOf(rows, ClaimOf(), key))
  {
    if rows != [] {
      var n := |rows| - 1;
      ImageRows(f, rows[..n], key);
      assert Image(f, rows)[..n] == Image(f, rows[..n]);
    }
  }

  lemma PromoteIsImage(records: seq<Record>, min: int)
    requires Stored(records)
    ensures Promote(records, min) == Image(AfterOf(records, min), records)
  {
    forall i | 0 <= i < |records| ensures Promote(records, min)[i] == After(records, min, records[i]) {
      PromotionPointwise(records, min, i);
    }
  }

  lemma RowsAfter(records: seq<Record>, min: int, key: string)
    requires Stored(records)
    ensures RowsFor(Promote(records, min), key) == Image(AfterOf(records, min), RowsFor(records, key))
  {
    var f := AfterOf(records, min);
    PromoteIsImage(records, min);
    ImageRows(f, records, key);
    ImageRows(f, ActiveRows(records), key);
  }

  lemma {:induction false} SumOfImage(f: Record -> Record, rows: seq<Record>)
    ensures (forall r | r in rows :: f(r).occurrences >= r.occurrences) ==>
              SumOccurrences(Image(f, rows)) >= SumOccurrences(rows)
    ensures (forall r | r in rows :: f(r).occurrences == r.occurrences) ==>
              SumOccurrences(Image(f, rows)) == SumOccurrences(rows)
  {
    if rows != [] {
      var n := |rows| - 1;
      SumOfImage(f, rows[..n]);
      assert Image(f, rows)[..n] == Image(f, rows[..n]);
      assert rows[n] in rows && forall r | r in rows[..n] :: r in rows;
    }
  }

  lemma AfterFacts(records: seq<Record>, min: int, r: Record)
    ensures Supports(After(records, min, r)) <==> Supports(r)
    ensures After(records, min, r).occurrences >= r.occurrences
    ensures !ClaimPromoted(records, r.claimKey, min) ==>
              After(records, min, r).occurrences == r.occurrences
  {
  }

  /** A second pass promotes the same claims, although the counts of promoted ones have grown. */
  lemma SameClaimsPromoted(records: seq<Record>, min: int, key: string)
    requires Stored(records)
    ensures ClaimPromoted(Promote(records, min), key, min) <==> ClaimPromoted(records, key, min)
  {
    var f, rows := AfterOf(records, min), RowsFor(records, key);
    RowsAfter(records, min, key);
    RowsForMembers(records, key);
    forall r | r in rows
      ensures Supports(f(r)) <==> Supports(r)
      ensures f(r).occurrences >= r.occurrences
      ensures !ClaimPromoted(records, key, min) ==> f(r).occurrences == r.occurrences
    {
      AfterFacts(records, min, r);
    }
    SumOfImage(f, rows);
  }

  lemma StoredAfter(records: seq<Record>, min: int)
    requires Stored(records)
    ensures Stored(Promote(records, min))
  {
    forall i | 0 <= i < |records|
      ensures Promote(records, min)[i].id == records[i].id && Promote(records, min)[i].occurrences >= 1
    {
      PassKeepsRecords(records, min, i);
    }
  }

  /** Running the pass on its own output changes no status. */
  lemma StatusesAreAFixpoint(records: seq<Record>, min: int, i: nat)
    requires Stored(records) && i < |records|
    ensures Promote(Promote(records, min), min)[i].status == Promote(records, min)[i].status
  {
    var once := Promote(records, min);
    StoredAfter(records, min);
    PromotionPointwise(records, min, i);
    PromotionPointwise(once, min, i);
    SameClaimsPromoted(records, min, records[i].claimKey);
  }

  // ------------------------------------------------------------ what a second pass changes

  lemma {:induction false} SumExceeds(rows: seq<Record>, j: nat)
    requires j < |rows| && forall i | 0 <= i < |rows| :: rows[i].occurrences >= 1
    ensures SumOccurrences(rows) >= rows[j].occurrences + |rows| - 1
  {
    var n := |rows| - 1;
    if j < n { SumExceeds(rows[..n], j); } else { SumAtLeast(rows[..n]); }
  }

  lemma OneRowIsItsClaim(records: seq<Record>, r: Record)
    requires Stored(records) && r in records && Active(r) && |RowsFor(records, r.claimKey)| < 2
    ensures RowsFor(records, r.claimKey) == [r] && SumOccurrences([r]) == r.occurrences
  {
    RowsForMembers(records, r.claimKey);
    assert r in RowsFor(records, r.claimKey);
    assert [r][..0] == [];
  }

  /** The claim of a promoted row sums to more after the pass than the row carries, unless the row is
      all there is to the claim. */
  lemma ClaimAfter(records: seq<Record>, min: int, r: Record)
    requires Stored(records) && r in records && Active(r)
    requires ClaimPromoted(records, r.claimKey, min) && Supports(r)
    ensures var size := SumOccurrences(RowsFor(Promote(records, min), r.claimKey));
            if |RowsFor(records, r.claimKey)| < 2 then size == After(records, min, r).occurrences
            else size > After(records, min, r).occurrences
  {
    var f, rows := AfterOf(records, min), RowsFor(records, r.claimKey);
    RowsAfter(records, min, r.claimKey);
    if |rows| < 2 {
      OneRowIsItsClaim(records, r);
      SumOfOne(f, r);
    } else {
      RowsForMembers(records, r.claimKey);
      forall q | q in rows ensures f(q).occurrences >= 1 {
        AfterFacts(records, min, q);
      }
      SumOfMany(f, rows, r);
    }
  }

  lemma SumOfOne(f: Record -> Record, r: Record)
    ensures SumOccurrences(Image(f, [r])) == f(r).occurrences
  {
    assert Image(f, [r])[..0] == [];
  }

  lemma SumOfMany(f: Record -> Record, rows: seq<Record>, r: Record)
    requires r in rows && |rows| >= 2 && forall q | q in rows :: f(q).occurrences >= 1
    ensures SumOccurrences(Image(f, rows)) > f(r).occurrences
  {
    var j :| 0 <= j < |rows| && rows[j] == r;
    SumExceeds(Image(f, rows), j);
  }

  /** A second pass changes a record exactly when the record is active, supports a promoted claim, and
      is not the claim's only row: its occurrences grow again. */
  lemma SecondPassChanges(records: seq<Record>, min: int, i: nat)
    requires Stored(records) && i < |records|
    ensures var r, once := records[i], Promote(records, min);
            Promote(once, min)[i] != once[i] <==>
              && Active(r) && ClaimPromoted(records, r.claimKey, min) && Supports(r)
              && |RowsFor(records, r.claimKey)| >= 2
  {
    var r, once := records[i], Promote(records, min);
    StoredAfter(records, min);
    PromotionPointwise(records, min, i);
    PromotionPointwise(once, min, i);
    SameClaimsPromoted(records, min, r.claimKey);
    AfterFacts(records, min, r);
    if Active(r) && ClaimPromoted(records, r.claimKey, min) && Supports(r) { ClaimAfter(records, min, r); }
  }

  lemma {:induction false} RowsOfAll(rows: seq<Record>, key: string)
    requires forall r | r in rows :: r.claimKey == key
    ensures RowsOf(rows, ClaimOf(), key) == rows
  {
    if rows != [] {
      var n := |rows| - 1;
      RowsOfAll(rows[..n], key);
      assert rows == rows[..n] + [rows[n]];
    }
  }

  lemma RowsOfTwo(p: Record, q: Record)
    requires Active(p) && Active(q) && p.claimKey == q.claimKey
    ensures RowsFor([p, q], p.claimKey) == [p, q]
    ensures SumOccurrences([p, q]) == p.occurrences + q.occurrences
  {
    FilterAll(Active, [p, q]);
    RowsOfAll([p, q], p.claimKey);
    assert [p][..0] == [] && SumOccurrences([p]) == p.occurrences;
    assert [p, q][..1] == [p];
  }

  lemma TwoRowsPromote(p: Record, q: Record, min: int)
    requires p.id != q.id && p.claimKey == q.claimKey && Supports(p) && Supports(q)
    requires p.occurrences == q.occurrences >= 1 && 2 * p.occurrences >= min
    ensures Promote([p, q], min)[0] == p.(status := Promoted, occurrences := 2 * p.occurrences)
    ensures Promote([p, q], min)[1] == q.(status := Promoted, occurrences := 2 * p.occurrences)
  {
    RowsOfTwo(p, q);
    assert p in [p, q] && ClaimPromoted([p, q], p.claimKey, min);
    PromotionPointwise([p, q], min, 0);
    PromotionPointwise([p, q], min, 1);
  }

  /** Two sightings of one claim, once each: every pass doubles what the records say. */
  lemma SecondPassDoubles(p: Record, q: Record)
    requires p.id != q.id && p.claimKey == q.claimKey && Supports(p) && Supports(q)
    requires p.occurrences == q.occurrences == 1
    ensures Promote([p, q], 2)[0].occurrences == 2
    ensures Promote(Promote([p, q], 2), 2)[0].occurrences == 4
  {
    TwoRowsPromote(p, q, 2);
    var once := Promote([p, q], 2);
    assert once == [once[0], once[1]];
    TwoRowsPromote(once[0], once[1], 2);
  }
}
