/** History windows and the VIX backfill over them (src/trading/data/backfill.py,
    src/trading/data/vix_backfill.py). Dates are day numbers, instants UTC epoch seconds. */
module Backfill {
  import opened Wrappers

  datatype Window = Window(first: int, last: int) {
    function Length(): int { last - first + 1 }
  }

  datatype WindowError = DaysTooFew | WindowTooSmall

  /** Consecutive windows from `start` to `end`, each full but the last. */
  ghost predicate Tiles(windows: seq<Window>, start: int, end: int, maxDays: int) {
    && (forall i | 0 <= i < |windows| :: 1 <= windows[i].Length() <= maxDays)
    && (forall i | 0 <= i < |windows| :: windows[i].first == start + i * maxDays)
    && (forall i | 0 <= i < |windows| - 1 :: windows[i].Length() == maxDays)
    && windows != [] && windows[|windows| - 1].last == end
  }

  function CeilDiv(days: int, size: int): int
    requires size > 0
  {
    (days + size - 1) / size
  }

  lemma CeilDivIs(days: int, size: int, count: int)
    requires size > 0 && days >= 1 && (count - 1) * size < days <= count * size
    ensures CeilDiv(days, size) == count
  {
    var q, r := (days + size - 1) / size, (days + size - 1) % size;
    assert days + size - 1 == q * size + r;
    Between(count - q, size, count * size - q * size);
  }

  lemma Between(gap: int, size: int, product: int)
    requires size > 0 && product == gap * size && -size < product < size
    ensures gap == 0
  {
    if gap >= 1 { AtLeast(gap, size); }
    if gap <= -1 { AtLeast(-gap, size); }
  }

  lemma AtLeast(gap: int, size: int)
    requires size > 0 && gap >= 1
    ensures gap * size >= size && -gap * size <= -size
  {
    assert gap * size == size + (gap - 1) * size;
  }

  /** `history_windows`: the inclusive look-back, tiled. */
  method HistoryWindows(end: int, days: int, maxDays: int) returns (r: Result<seq<Window>, WindowError>)
    ensures r.Ok? <==> days >= 1 && maxDays >= 1
    ensures r.Err? ==> r.error == if days < 1 then DaysTooFew else WindowTooSmall
    ensures r.Ok? ==> Tiles(r.value, end - days + 1, end, maxDays) && |r.value| == CeilDiv(days, maxDays)
  {
    if days < 1 {
      return Err(DaysTooFew);
    }
    if maxDays < 1 {
      return Err(WindowTooSmall);
    }
    var start := end - (days - 1);
    var windows: seq<Window> := [];
    var cursor := start;
    while cursor <= end
      invariant forall i | 0 <= i < |windows| :: 1 <= windows[i].Length() <= maxDays
      invariant forall i | 0 <= i < |windows| :: windows[i].first == start + i * maxDays
      invariant forall i | 0 <= i < |windows| - 1 :: windows[i].Length() == maxDays
      invariant cursor <= end + 1
      invariant windows != [] ==> windows[|windows| - 1].last == cursor - 1
      invariant cursor <= end ==> cursor == start + |windows| * maxDays
      invariant cursor == end + 1 ==> windows != [] && days <= |windows| * maxDays
      invariant windows != [] ==> (|windows| - 1) * maxDays < days
      decreases end - cursor
    {
      var chunkEnd := MinInt(cursor + (maxDays - 1), end);
      assert (|windows| + 1) * maxDays == |windows| * maxDays + maxDays;
      windows := windows + [Window(cursor, chunkEnd)];
      cursor := chunkEnd + 1;
    }
    CeilDivIs(days, maxDays, |windows|);
    return Ok(windows);
  }

  /** Every day of the range lies in exactly one window, and no window reaches outside it. */
  lemma CoveredOnce(windows: seq<Window>, start: int, end: int, maxDays: int, day: int) returns (k: nat)
    requires Tiles(windows, start, end, maxDays) && start <= day <= end
    ensures k < |windows| && windows[k].first <= day <= windows[k].last
    ensures forall i | 0 <= i < |windows| && i != k :: !(windows[i].first <= day <= windows[i].last)
  {
    k := 0;
    while k + 1 < |windows| && windows[k + 1].first <= day
      invariant k < |windows| && windows[k].first <= day
      decreases |windows| - k
    {
      k := k + 1;
    }
    forall i | 0 <= i < |windows| && i != k ensures !(windows[i].first <= day <= windows[i].last) {
      if i < k {
        LaterStarts(windows, start, end, maxDays, i, k);
      } else {
        if i > k + 1 { LaterStarts(windows, start, end, maxDays, k + 1, i); }
      }
    }
  }

  lemma LaterStarts(windows: seq<Window>, start: int, end: int, maxDays: int, i: nat, j: nat)
    requires Tiles(windows, start, end, maxDays) && i < j < |windows|
    ensures windows[i].last < windows[j].first
  {
    assert windows[i].Length() == maxDays;
    assert j * maxDays == i * maxDays + (j - i) * maxDays;
    AtLeast(j - i, maxDays);
  }

  lemma LastWindow(windows: seq<Window>, start: int, end: int, maxDays: int)
    requires Tiles(windows, start, end, maxDays)
    ensures maxDays >= 1 && (|windows| - 1) * maxDays <= end - start < |windows| * maxDays
  {
    var last := windows[|windows| - 1];
    assert last.first == start + (|windows| - 1) * maxDays && 1 <= last.Length() <= maxDays;
    assert |windows| * maxDays == (|windows| - 1) * maxDays + maxDays;
  }

  /** The tiling of a range is unique, so a retry asks the provider for the same ranges. */
  lemma TilingIsUnique(a: seq<Window>, b: seq<Window>, start: int, end: int, maxDays: int)
    requires Tiles(a, start, end, maxDays) && Tiles(b, start, end, maxDays)
    ensures a == b
  {
    LastWindow(a, start, end, maxDays);
    LastWindow(b, start, end, maxDays);
    Between(|a| - |b|, maxDays, |a| * maxDays - |b| * maxDays);
    forall i | 0 <= i < |a| ensures a[i] == b[i] {
      assert a[i].first == b[i].first;
      if i < |a| - 1 { assert a[i].Length() == b[i].Length(); }
    }
  }

  // --------------------------------------------------------------------------- VIX

  const DAY := 86_400
  const IST_OFFSET := 19_800

  /** The calendar day in India of an instant. */
  function IstDay(instant: int): int { (instant + IST_OFFSET) / DAY }

  /** 15:30 in India on a day. */
  function SessionClose(day: int): int { day * DAY + 55_800 - IST_OFFSET }

  /** A day in India starts five and a half hours before the day of the clock, and its session closes fifteen
      and a half hours into it, which is ten o'clock. */
  lemma IndianDay(instant: int, day: int)
    ensures IstDay(instant) == day <==> 86_400 * day - 19_800 <= instant < 86_400 * (day + 1) - 19_800
    ensures SessionClose(day) == 86_400 * day + 10 * 3_600
  {
  }

  lemma SessionCloseKeepsItsDay(day: int)
    ensures IstDay(SessionClose(day)) == day
  {
  }

  /** A candle, or a row the parser drops. */
  datatype Row = Unreadable | Candle(stamp: int, close: real)

  /** A stored snapshot: the configured level feature, and the market price to fall back on. */
  datatype Record = Record(asOf: int, hasSnapshot: bool, level: Option<real>, price: Option<real>)

  /** The record marks its day as present. */
  predicate Usable(r: Record) {
    r.hasSnapshot && ((r.level.Some? && r.level.value > 0.0) || (r.price.Some? && r.price.value > 0.0))
  }

  /** `_existing_vix_dates`. */
  function ExistingDates(records: seq<Record>): set<int> {
    if records == [] then {}
    else
      var n := |records| - 1;
      ExistingDates(records[..n]) + if Usable(records[n]) then {IstDay(records[n].asOf)} else {}
  }

  /** A record marks no day exactly if it carries no snapshot, or neither its level nor its price is a positive
      number. */
  lemma MarksNoDay(r: Record)
    ensures ExistingDates([r]) == {} <==>
              || !r.hasSnapshot
              || ((r.level.None? || r.level.value <= 0.0) && (r.price.None? || r.price.value <= 0.0))
    ensures ExistingDates([r]) <= {IstDay(r.asOf)}
  {
    assert [r][..0] == [];
    assert ExistingDates([r]) == ExistingDates([]) + if Usable(r) then {IstDay(r.asOf)} else {};
    assert IstDay(r.asOf) in {IstDay(r.asOf)};
  }

  predicate Dated(row: Row) { row.Candle? && row.close > 0.0 }

  function RecordFor(row: Row): Record
    requires Dated(row)
  {
    Record(SessionClose(IstDay(row.stamp)), true, Some(row.close), Some(row.close))
  }

  /** What one run appends: the first buildable candle of each day not yet present. */
  function NewRecords(rows: seq<Row>, builds: Row -> bool, existing: set<int>): seq<Record> {
    if rows == [] then []
    else
      var n := |rows| - 1;
      var before := NewRecords(rows[..n], builds, existing);
      var row := rows[n];
      if Dated(row) && builds(row) && IstDay(row.stamp) !in existing + ExistingDates(before)
      then before + [RecordFor(row)] else before
  }

  function Skipped(rows: seq<Row>, builds: Row -> bool, existing: set<int>): nat {
    if rows == [] then 0
    else
      var n := |rows| - 1;
      Skipped(rows[..n], builds, existing)
        + if Dated(rows[n])
             && IstDay(rows[n].stamp) in existing + ExistingDates(NewRecords(rows[..n], builds, existing))
          then 1 else 0
  }

  lemma ExistingWith(records: seq<Record>, row: Row)
    requires Dated(row)
    ensures ExistingDates(records + [RecordFor(row)]) == ExistingDates(records) + {IstDay(row.stamp)}
  {
    assert (records + [RecordFor(row)])[..|records|] == records;
    SessionCloseKeepsItsDay(IstDay(row.stamp));
  }

  /** Rows fetched for some windows, in order. */
  function Fetched(feed: Window -> seq<Row>, windows: seq<Window>): seq<Row> {
    if windows == [] then [] else Fetched(feed, windows[..|windows| - 1]) + feed(windows[|windows| - 1])
  }

  /** Append-only. */
  class SnapshotStore {
    var records: seq<Record>

    constructor ()
      ensures records == []
    {
      records := [];
    }

    method Append(r: Record)
      modifies this
      ensures records == old(records) + [r]
    {
      records := records + [r];
    }
  }

  /** What a run in progress has done. */
  ghost predicate Progress(
    rows: seq<Row>, builds: Row -> bool, before: seq<Record>, now: seq<Record>,
    existing: set<int>, written: nat, skipped: nat)
  {
    var present := ExistingDates(before);
    && now == before + NewRecords(rows, builds, present)
    && existing == present + ExistingDates(NewRecords(rows, builds, present))
    && written == |NewRecords(rows, builds, present)|
    && skipped == Skipped(rows, builds, present)
  }

  /** One candle. */
  method StoreRow(
    store: SnapshotStore, row: Row, builds: Row -> bool, existing: set<int>, written: nat, skipped: nat,
    ghost rows: seq<Row>, ghost before: seq<Record>)
    returns (e: set<int>, w: nat, s: nat)
    requires Progress(rows, builds, before, store.records, existing, written, skipped)
    modifies store
    ensures Progress(rows + [row], builds, before, store.records, e, w, s)
  {
    assert (rows + [row])[..|rows|] == rows;
    e, w, s := existing, written, skipped;
    if row.Unreadable? || row.close <= 0.0 {
      return;
    }
    var day := IstDay(row.stamp);
    if day in existing {
      s := s + 1;
      return;
    }
    if !builds(row) {
      return;
    }
    ExistingWith(NewRecords(rows, builds, ExistingDates(before)), row);
    store.Append(RecordFor(row));
    e, w := existing + {day}, written + 1;
  }

  datatype Outcome = Outcome(written: nat, skipped: nat, tradingDays: nat)

  /** The two loops. */
  method StoreWindows(store: SnapshotStore, feed: Window -> seq<Row>, builds: Row -> bool, windows: seq<Window>)
    returns (o: Outcome)
    modifies store
    ensures var rows, present := Fetched(feed, windows), ExistingDates(old(store.records));
            && store.records == old(store.records) + NewRecords(rows, builds, present)
            && o.written == |NewRecords(rows, builds, present)| && o.skipped == Skipped(rows, builds, present)
            && o.tradingDays == |present + ExistingDates(NewRecords(rows, builds, present))|
  {
    ghost var before := store.records;
    var existing, written, skipped := ExistingDates(store.records), 0, 0;
    for i := 0 to |windows|
      invariant Progress(Fetched(feed, windows[..i]), builds, before, store.records, existing, written, skipped)
    {
      var rows := feed(windows[i]);
      ghost var done := Fetched(feed, windows[..i]);
      assert done + rows[..0] == done;
      for j := 0 to |rows|
        invariant Progress(done + rows[..j], builds, before, store.records, existing, written, skipped)
      {
        assert done + rows[..j + 1] == (done + rows[..j]) + [rows[j]];
        existing, written, skipped :=
          StoreRow(store, rows[j], builds, existing, written, skipped, done + rows[..j], before);
      }
      assert rows[..|rows|] == rows && windows[..i + 1][..i] == windows[..i];
    }
    assert windows[..|windows|] == windows;
    o := Outcome(written, skipped, |existing|);
  }

  /** `backfill_vix_snapshots`. */
  method BackfillVix(
    store: SnapshotStore, feed: Window -> seq<Row>, builds: Row -> bool, end: int, days: int, maxDays: int)
    returns (r: Result<Outcome, WindowError>, ghost windows: seq<Window>)
    modifies store
    ensures r.Ok? <==> days >= 1 && maxDays >= 1
    ensures r.Err? ==> store.records == old(store.records)
    ensures r.Ok? ==>
              && Tiles(windows, end - days + 1, end, maxDays) && |windows| == CeilDiv(days, maxDays)
              && store.records == old(store.records)
                   + NewRecords(Fetched(feed, windows), builds, ExistingDates(old(store.records)))
              && r.value.written == |store.records| - |old(store.records)|
              && r.value.skipped == Skipped(Fetched(feed, windows), builds, ExistingDates(old(store.records)))
              && r.value.tradingDays == |ExistingDates(store.records)|
  {
    var tiling := HistoryWindows(end, days, maxDays);
    windows := [];
    if tiling.Err? {
      return Err(tiling.error), windows;
    }
    windows := tiling.value;
    ghost var before := store.records;
    var o := StoreWindows(store, feed, builds, tiling.value);
    ExistingAppend(before, NewRecords(Fetched(feed, windows), builds, ExistingDates(before)));
    return Ok(o), windows;
  }

  // ---------------------------------------------------------------- one record per day

  /** Appended records mark days that were absent, each once. */
  lemma {:induction false} OneRecordPerDay(rows: seq<Row>, builds: Row -> bool, existing: set<int>, i: nat)
    requires i < |NewRecords(rows, builds, existing)|
    ensures var added := NewRecords(rows, builds, existing);
            && Usable(added[i]) && IstDay(added[i].asOf) !in existing
            && IstDay(added[i].asOf) in ExistingDates(added)
            && forall j | 0 <= j < |added| && j != i :: IstDay(added[j].asOf) != IstDay(added[i].asOf)
  {
    var n := |rows| - 1;
    var before := NewRecords(rows[..n], builds, existing);
    forall j | 0 <= j < |before|
      ensures IstDay(before[j].asOf) in ExistingDates(before) && IstDay(before[j].asOf) !in existing
      ensures Usable(before[j])
    {
      OneRecordPerDay(rows[..n], builds, existing, j);
    }
    if |NewRecords(rows, builds, existing)| > |before| {
      ExistingWith(before, rows[n]);
      SessionCloseKeepsItsDay(IstDay(rows[n].stamp));
    }
    if i < |before| { OneRecordPerDay(rows[..n], builds, existing, i); }
  }

  lemma {:induction false} EveryDayIsPresent(rows: seq<Row>, builds: Row -> bool, existing: set<int>, row: Row)
    requires row in rows && Dated(row) && builds(row)
    ensures IstDay(row.stamp) in existing + ExistingDates(NewRecords(rows, builds, existing))
  {
    var n := |rows| - 1;
    var before := NewRecords(rows[..n], builds, existing);
    assert rows == rows[..n] + [rows[n]];
    if Dated(rows[n]) { ExistingWith(before, rows[n]); }
    if row in rows[..n] { EveryDayIsPresent(rows[..n], builds, existing, row); }
  }

  lemma {:induction false} NothingNew(rows: seq<Row>, builds: Row -> bool, existing: set<int>)
    requires forall row | row in rows && Dated(row) && builds(row) :: IstDay(row.stamp) in existing
    ensures NewRecords(rows, builds, existing) == []
  {
    if rows != [] { NothingNew(rows[..|rows| - 1], builds, existing); }
  }

  lemma {:induction false} ExistingAppend(a: seq<Record>, b: seq<Record>)
    ensures ExistingDates(a + b) == ExistingDates(a) + ExistingDates(b)
  {
    if b == [] {
      assert a + b == a;
    } else {
      var n := |b| - 1;
      assert (a + b)[..|a + b| - 1] == a + b[..n];
      ExistingAppend(a, b[..n]);
    }
  }

  /** A second run over the same rows appends nothing. */
  lemma SecondRunWritesNothing(rows: seq<Row>, builds: Row -> bool, records: seq<Record>)
    ensures var after := records + NewRecords(rows, builds, ExistingDates(records));
            NewRecords(rows, builds, ExistingDates(after)) == []
  {
    var present := ExistingDates(records);
    ExistingAppend(records, NewRecords(rows, builds, present));
    forall row | row in rows && Dated(row) && builds(row)
      ensures IstDay(row.stamp) in present + ExistingDates(NewRecords(rows, builds, present))
    {
      EveryDayIsPresent(rows, builds, present, row);
    }
    NothingNew(rows, builds, present + ExistingDates(NewRecords(rows, builds, present)));
  }
}
