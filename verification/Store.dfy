/** The store object: its operations as the program runs them, each tied to the
    value-level transaction or retention pass it performs, and the queries and loops
    these operations are made of. */
module Store {
  import opened Wrappers
  import opened Clock
  import opened Calendar
  import opened Allocation
  import opened Split
  import opened Ledger
  import opened Expiry
  import History

  function Prefixed(front: seq<MetricRow>, r: Result<seq<MetricRow>>): Result<seq<MetricRow>> {
    match r
    case Err(e) => Err(e)
    case Ok(rows) => Ok(front + rows)
  }

  /** addMetric: find the row by primary key, then insert or update under the overflow guard. */
  method AddMetric(rows: seq<MetricRow>, add: MetricRow) returns (r: Result<seq<MetricRow>>)
    ensures r == Upsert(rows, add)
  {
    var i := 0;
    assert rows[..0] == [] && rows[0..] == rows;
    assert Upsert(rows, add).Ok? ==> [] + Upsert(rows, add).value == Upsert(rows, add).value;
    while i < |rows| && rows[i].key != add.key
      invariant 0 <= i <= |rows|
      invariant Prefixed(rows[..i], Upsert(rows[i..], add)) == Upsert(rows, add)
    {
      PrefixStep(rows, i, add);
      i := i + 1;
    }
    if i == |rows| {
      assert rows[i..] == [] && rows[..i] == rows;
      return Ok(rows + [add]);
    }
    var row := rows[i];
    if !row.amount.Room(add.amount) {
      return Err(CounterOverflow);
    }
    var merged := MetricRow(add.key, row.amount.Plus(add.amount), Min(row.first, add.first), Max(row.last, add.last));
    assert rows[i..][1..] == rows[i + 1..];
    r := Ok(rows[..i] + ([merged] + rows[i + 1..]));
  }

  lemma PrefixStep(rows: seq<MetricRow>, i: nat, add: MetricRow)
    requires i < |rows| && rows[i].key != add.key
    ensures Prefixed(rows[..i + 1], Upsert(rows[i + 1..], add)) == Prefixed(rows[..i], Upsert(rows[i..], add))
  {
    assert rows[i..][1..] == rows[i + 1..];
    if Upsert(rows[i + 1..], add).Ok? {
      var rest := Upsert(rows[i + 1..], add).value;
      assert rows[..i + 1] + rest == rows[..i] + ([rows[i]] + rest);
    }
  }

  /** The row of each piece of a delta, by a name that keeps the arithmetic out of the loop. */
  ghost predicate Measures(res: Resolution, source: string, d: Delta, measure: Piece -> MetricRow)
    requires ValidDelta(d)
  {
    forall p {:trigger PieceRow(res, source, Normalize(d.dims), Curve(d.up, d.start, d.end), Curve(d.down, d.start, d.end), p)} ::
      measure(p) == PieceRow(res, source, Normalize(d.dims), Curve(d.up, d.start, d.end), Curve(d.down, d.start, d.end), p)
  }

  /** The row of one piece, its bytes allocated with 128-bit products. */
  method MeasurePiece(res: Resolution, source: string, d: Delta, p: Piece, ghost measure: Piece -> MetricRow) returns (row: MetricRow)
    requires ValidDelta(d) && d.start <= p.start <= p.end <= d.end && Measures(res, source, d, measure)
    ensures row == measure(p)
  {
    var up := Allocated(d.up, d.start, d.end, p.start, p.end);
    var down := Allocated(d.down, d.start, d.end, p.start, p.end);
    row := MetricRow(MetricKey(res, UnixMilli(p.bucket), source, Normalize(d.dims)), Amount(up, down, 0), Millis(p.start), Millis(p.end));
    assert row == PieceRow(res, source, Normalize(d.dims), Curve(d.up, d.start, d.end), Curve(d.down, d.start, d.end), p);
  }

  /** The callback: allocate each piece, add its row. */
  method AddEach(res: Resolution, rows: seq<MetricRow>, source: string, d: Delta, pieces: seq<Piece>, ghost measure: Piece -> MetricRow, ghost all: seq<MetricRow>)
      returns (r: Result<seq<MetricRow>>)
    requires ValidDelta(d) && Measures(res, source, d, measure)
    requires forall i :: 0 <= i < |pieces| ==> d.start <= pieces[i].start <= pieces[i].end <= d.end
    requires |all| == |pieces| && forall i :: 0 <= i < |pieces| ==> all[i] == measure(pieces[i])
    ensures r == AddRows(rows, all)
  {
    var table := rows;
    for i := 0 to |pieces|
      invariant AddRows(table, all[i..]) == AddRows(rows, all)
    {
      var row := MeasurePiece(res, source, d, pieces[i], measure);
      assert all[i..][0] == row && all[i..][1..] == all[i + 1..];
      var added := AddMetric(table, row);
      if added.Err? {
        return added;
      }
      table := added.value;
    }
    assert all[|pieces|..] == [];
    r := Ok(table);
  }

  lemma {:induction false} PieceRowsAt(res: Resolution, source: string, dims: Dimensions, up: Time -> int, down: Time -> int, pieces: seq<Piece>)
    ensures var rows := PieceRows(res, source, dims, up, down, pieces);
            |rows| == |pieces| && forall i :: 0 <= i < |rows| ==> rows[i] == PieceRow(res, source, dims, up, down, pieces[i])
  {
    if pieces != [] {
      PieceRowsAt(res, source, dims, up, down, pieces[1..]);
    }
  }

  /** One resolution of an interval: cut it, allocate each piece, add each row. */
  method AddPieces(days: Grid, res: Resolution, rows: seq<MetricRow>, source: string, d: Delta) returns (r: Result<seq<MetricRow>>)
    requires Regular(days) && Tiling(GridOf(days, res)) && ValidDelta(d)
    ensures r == AddRows(rows, IntervalRows(days, res, source, Normalize(d.dims), d.start, d.end, d.up, d.down))
  {
    TilingAdvances(GridOf(days, res), d.start, d.end);
    var pieces := SplitInterval(days, res, d.start, d.end);
    PiecesTile(GridOf(days, res), d.start, d.end);
    ghost var measure, all := RowsMeasured(days, res, source, d, pieces);
    r := AddEach(res, rows, source, d, pieces, measure, all);
  }

  lemma RowsMeasured(days: Grid, res: Resolution, source: string, d: Delta, pieces: seq<Piece>) returns (measure: Piece -> MetricRow, all: seq<MetricRow>)
    requires ValidDelta(d) && pieces == Pieces(GridOf(days, res), d.start, d.end)
    ensures Measures(res, source, d, measure) && |all| == |pieces| && forall i :: 0 <= i < |pieces| ==> all[i] == measure(pieces[i])
    ensures all == IntervalRows(days, res, source, Normalize(d.dims), d.start, d.end, d.up, d.down)
  {
    var dims, up, down := Normalize(d.dims), Curve(d.up, d.start, d.end), Curve(d.down, d.start, d.end);
    measure := (p: Piece) => PieceRow(res, source, dims, up, down, p);
    all := PieceRows(res, source, dims, up, down, pieces);
    PieceRowsAt(res, source, dims, up, down, pieces);
  }

  /** Adding more rows to the outcome of an earlier addition. */
  function AddMore(r: Result<seq<MetricRow>>, adds: seq<MetricRow>): Result<seq<MetricRow>> {
    match r
    case Err(e) => Err(e)
    case Ok(rows) => AddRows(rows, adds)
  }

  lemma {:induction false} AddRowsConcat(rows: seq<MetricRow>, a: seq<MetricRow>, b: seq<MetricRow>)
    ensures AddRows(rows, a + b) == AddMore(AddRows(rows, a), b)
    decreases |a|
  {
    if a == [] {
      assert a + b == b;
    } else {
      assert (a + b)[0] == a[0] && (a + b)[1..] == a[1..] + b;
      if Upsert(rows, a[0]).Ok? {
        AddRowsConcat(Upsert(rows, a[0]).value, a[1..], b);
      }
    }
  }

  lemma AddTwo(rows: seq<MetricRow>, a: MetricRow, b: MetricRow)
    ensures AddRows(rows, [a, b]) == AddMore(Upsert(rows, a), [b])
  {
    assert [a, b] == [a] + [b];
    AddRowsConcat(rows, [a], [b]);
    AddOne(rows, a);
  }

  lemma AddOne(rows: seq<MetricRow>, a: MetricRow)
    ensures AddRows(rows, [a]) == Upsert(rows, a)
  {
    assert [a][1..] == [];
  }

  /** One turn of the event loop. */
  method IngestEvent(days: Grid, tx: Tx, source: string, e: Event) returns (r: Result<Tx>)
    requires Regular(days)
    ensures r == AddEvent(days, tx, source, e)
  {
    if !ValidEvent(e) {
      return Err(InvalidEvent);
    }
    var count := if e.count == 0 then 1 else e.count;
    if UnixMilli(e.at) < Cut(tx.tables.detailCutoff) {
      return Ok(tx.(skipped := tx.skipped + count));
    }
    var key := DetailKey(source, e.id, EventDetail);
    if key in tx.tables.details {
      return Ok(tx);
    }
    var minute := EventRow(Minute, TruncateMinute(e.at), source, Normalize(e.dims), e.at, count);
    var day := EventRow(Day, days.floor(e.at), source, Normalize(e.dims), e.at, count);
    AddTwo(tx.tables.metrics, minute, day);
    var first := AddMetric(tx.tables.metrics, minute);
    if first.Err? {
      return Err(first.error);
    }
    AddOne(first.value, day);
    var second := AddMetric(first.value, day);
    if second.Err? {
      return Err(second.error);
    }
    r := Ok(Tx(tx.tables.(details := tx.tables.details[key := Millis(e.at)], metrics := second.value), tx.skipped,
               tx.accepted + [EventSeen(source, e.id, Normalize(e.dims), e.at, count)]));
  }

  /** The interval branch of the delta loop. */
  method IngestInterval(days: Grid, tx: Tx, source: string, d: Delta) returns (r: Result<Tx>)
    requires Regular(days) && ValidDelta(d)
    ensures r == AddInterval(days, tx, source, d)
  {
    if UnixMilli(d.end) <= Cut(tx.tables.detailCutoff) {
      return Ok(tx.(skipped := tx.skipped + 1));
    }
    var key := DetailKey(source, d.id, DeltaDetail);
    if key in tx.tables.details {
      return Ok(tx);
    }
    MinutesRegular();
    ghost var dims := Normalize(d.dims);
    AddRowsConcat(tx.tables.metrics, IntervalRows(days, Minute, source, dims, d.start, d.end, d.up, d.down),
                  IntervalRows(days, Day, source, dims, d.start, d.end, d.up, d.down));
    var minutes := AddPieces(days, Minute, tx.tables.metrics, source, d);
    if minutes.Err? {
      return Err(minutes.error);
    }
    var both := AddPieces(days, Day, minutes.value, source, d);
    if both.Err? {
      return Err(both.error);
    }
    r := Ok(Tx(tx.tables.(details := tx.tables.details[key := Millis(d.end)], metrics := both.value), tx.skipped,
               tx.accepted + [IntervalSeen(source, d.id, Normalize(d.dims), d.start, d.end, d.up, d.down)]));
  }

  /** The native-day branch of the delta loop. */
  method IngestDay(days: Grid, tx: Tx, source: string, d: Delta) returns (r: Result<Tx>)
    requires Regular(days) && source in tx.tables.sources
    ensures r == ImportDay(days, tx, source, d)
  {
    var start := days.floor(d.start);
    if d.start != start || d.end != days.after(start) {
      return Err(MisalignedDay);
    }
    if UnixMilli(start) < Cut(tx.tables.dayCutoff) {
      return Ok(tx.(skipped := tx.skipped + 1));
    }
    var key := ImportKey(source, d.id);
    if key in tx.tables.imports {
      return Ok(tx);
    }
    var row := ImportRow(source, Normalize(d.dims), start, d.end, d.up, d.down);
    AddOne(tx.tables.metrics, row);
    var added := AddMetric(tx.tables.metrics, row);
    if added.Err? {
      return Err(added.error);
    }
    r := Ok(Tx(tx.tables.(imports := tx.tables.imports[key := UnixMilli(start)], metrics := added.value,
                          sources := tx.tables.sources[source := tx.tables.sources[source].(coarseDay := true)]),
               tx.skipped, tx.accepted + [DayImported(source, d.id, Normalize(d.dims), start, d.end, d.up, d.down)]));
  }

  method IngestEvents(days: Grid, tx: Tx, source: string, events: seq<Event>) returns (r: Result<Tx>)
    requires Regular(days)
    ensures r == AddEvents(days, tx, source, events)
  {
    var t := tx;
    for i := 0 to |events|
      invariant AddEvents(days, t, source, events[i..]) == AddEvents(days, tx, source, events)
    {
      assert events[i..][0] == events[i] && events[i..][1..] == events[i + 1..];
      var next := IngestEvent(days, t, source, events[i]);
      if next.Err? {
        return Err(next.error);
      }
      t := next.value;
    }
    r := Ok(t);
  }

  method IngestDeltas(days: Grid, tx: Tx, source: string, deltas: seq<Delta>) returns (r: Result<Tx>)
    requires Regular(days) && source in tx.tables.sources
    ensures r == AddDeltas(days, tx, source, deltas)
  {
    var t := tx;
    for i := 0 to |deltas|
      invariant source in t.tables.sources
      invariant AddDeltas(days, t, source, deltas[i..]) == AddDeltas(days, tx, source, deltas)
    {
      var d := deltas[i];
      assert deltas[i..][0] == d && deltas[i..][1..] == deltas[i + 1..];
      if !ValidDelta(d) {
        return Err(InvalidDelta);
      }
      if d.granularity !in {"", "interval", "day"} {
        return Err(UnsupportedGranularity);
      }
      var next;
      if d.granularity == "day" {
        next := IngestDay(days, t, source, d);
      } else {
        next := IngestInterval(days, t, source, d);
      }
      if next.Err? {
        return Err(next.error);
      }
      t := next.value;
    }
    r := Ok(t);
  }

  /** One resolution of newly covered time. */
  method ExtendCoverage(days: Grid, res: Resolution, rows: seq<CoverageRow>, source: string, start: Time, end: Time) returns (r: seq<CoverageRow>)
    requires Tiling(GridOf(days, res))
    ensures r == ExtendAll(rows, CoverRows(res, source, Pieces(GridOf(days, res), start, end)))
  {
    TilingAdvances(GridOf(days, res), start, end);
    var pieces := SplitInterval(days, res, start, end);
    r := rows;
    for i := 0 to |pieces|
      invariant ExtendAll(r, CoverRows(res, source, pieces[i..])) == ExtendAll(rows, CoverRows(res, source, pieces))
    {
      var p := pieces[i];
      assert pieces[i..][0] == p && pieces[i..][1..] == pieces[i + 1..];
      r := Extend(r, CoverageRow(CoverageKey(res, UnixMilli(p.bucket), source), UnixMilli(p.end - p.start)));
    }
  }

  /** The coverage block of an ingest. */
  method CoverBatch(days: Grid, t: Tables, b: Batch) returns (r: Result<Tables>)
    requires Regular(days) && b.sourceId in t.sources
    ensures r == Cover(days, t, b)
  {
    if b.coverageStart == ZERO_TIME {
      return Ok(t);
    }
    var row := t.sources[b.sourceId];
    var start := b.coverageStart;
    if Millis(start) < row.coverageEnd {
      start := FromMillis(row.coverageEnd);
    }
    if b.at - start > MAX_SPAN {
      return Err(CoverageTooLong);
    }
    if start >= b.at {
      return Ok(t);
    }
    MinutesRegular();
    var minutes := ExtendCoverage(days, Minute, t.coverage, b.sourceId, start, b.at);
    var both := ExtendCoverage(days, Day, minutes, b.sourceId, start, b.at);
    r := Ok(t.(coverage := both, sources := t.sources[b.sourceId := row.(coverageEnd := Millis(b.at))]));
  }

  /** Whether a call gets as far as filling the database: a storage failure inside the
      transaction raises the pressure flag, the budget test before it does not. */
  predicate Fills(zones: map<string, Grid>, b: Batch, storage: Storage) {
    BatchError(b).None? && ZoneName(b) in zones && !(storage.pressure && !b.compact) && !storage.overBudget && storage.full
  }

  const MAX_PASSES := 32

  /** Nothing is left that eviction could remove. */
  predicate Drained(t: Tables) { t.details == map[] && t.metrics == [] }

  /** The eviction loop: at most 32 chunks, while over target and anything is left. */
  function Evicted(days: Grid, t: Tables, overTarget: nat -> bool, oldest: map<DetailKey, int> -> Option<int>, pass: nat): Tables
    decreases MAX_PASSES - pass
  {
    if pass >= MAX_PASSES || !overTarget(pass) || Drained(t) then t
    else Evicted(days, Evict(days, t, oldest(t.details)), overTarget, oldest, pass + 1)
  }

  predicate AllOver(overTarget: nat -> bool, n: nat) { forall i :: 0 <= i < n ==> overTarget(i) }

  /** The loop makes n passes, each over target: as many as it may, or until it need not go on. */
  predicate EndedAfter(overTarget: nat -> bool, t: Tables, n: nat) {
    n <= 32 && AllOver(overTarget, n) && (n == 32 || !overTarget(n) || Drained(t))
  }

  /** The eviction loop only ever makes steps of a run, so every theorem about runs
      speaks about the store. */
  lemma {:induction false} EvictionIsRun(zones: map<string, Grid>, ops: seq<History.Op>, tz: string,
                                         overTarget: nat -> bool, oldest: map<DetailKey, int> -> Option<int>, pass: nat)
      returns (all: seq<History.Op>)
    requires AllRegular(zones) && tz in zones && forall d :: OldestDetails(d, oldest(d))
    ensures ops <= all
    ensures History.Run(zones, all).tables == Evicted(zones[tz], History.Run(zones, ops).tables, overTarget, oldest, pass)
    ensures History.Run(zones, all).history == History.Run(zones, ops).history
  {
    all := EvictionFrom(zones, ops, tz, History.Run(zones, ops), overTarget, oldest, pass);
  }

  lemma {:induction false} EvictionFrom(zones: map<string, Grid>, ops: seq<History.Op>, tz: string, w: History.World,
                                        overTarget: nat -> bool, oldest: map<DetailKey, int> -> Option<int>, pass: nat)
      returns (all: seq<History.Op>)
    requires tz in zones && (forall d :: OldestDetails(d, oldest(d))) && w == History.Run(zones, ops)
    ensures ops <= all
    ensures History.Run(zones, all) == w.(tables := Evicted(zones[tz], w.tables, overTarget, oldest, pass))
    decreases MAX_PASSES - pass
  {
    if pass >= MAX_PASSES || !overTarget(pass) || Drained(w.tables) {
      all := ops;
    } else {
      var next := EvictionStep(zones, ops, tz, w, oldest(w.tables.details));
      all := EvictionFrom(zones, ops + [History.EvictOp(tz, oldest(w.tables.details))], tz, next, overTarget, oldest, pass + 1);
    }
  }

  lemma {:induction false} EvictedIsPart(days: Grid, t: Tables, overTarget: nat -> bool, oldest: map<DetailKey, int> -> Option<int>, pass: nat)
    ensures PartOf(t, Evicted(days, t, overTarget, oldest, pass))
    decreases MAX_PASSES - pass
  {
    if pass < MAX_PASSES && overTarget(pass) && !Drained(t) {
      EvictIsPart(days, t, oldest(t.details));
      var next := Evict(days, t, oldest(t.details));
      EvictedIsPart(days, next, overTarget, oldest, pass + 1);
      PartOfPart(t, next, Evicted(days, t, overTarget, oldest, pass));
    }
  }

  /** Whatever is evicted after it, a pass by time leaves nothing below its horizons. */
  lemma ExpiredAndEvicted(t: Tables, h: Horizon, t': Tables)
    requires PartOf(Ledger.Prune(t, h), t')
    ensures PartOf(t, t') && forall m :: IsMarks(h, m) ==> NoneExpired(t', m) && OnlyExpired(t, Ledger.Prune(t, h), m) && AllRisen(t, Ledger.Prune(t, h), m)
  {
    var mark := MarksExist(h);
    PruneExpires(t, h, mark);
    OnlyExpiredIsPart(t, Ledger.Prune(t, h), mark);
    forall m | IsMarks(h, m) ensures NoneExpired(t', m) && OnlyExpired(t, Ledger.Prune(t, h), m) && AllRisen(t, Ledger.Prune(t, h), m) {
      PruneExpires(t, h, m);
      OnlyExpiredLeavesNone(t, Ledger.Prune(t, h), m);
      PartLeavesNone(Ledger.Prune(t, h), t', m);
    }
  }

  lemma EvictionStep(zones: map<string, Grid>, ops: seq<History.Op>, tz: string, w: History.World, answer: Option<int>) returns (next: History.World)
    requires tz in zones && w == History.Run(zones, ops) && OldestDetails(w.tables.details, answer)
    ensures next == w.(tables := Evict(zones[tz], w.tables, answer)) == History.Run(zones, ops + [History.EvictOp(tz, answer)])
  {
    next := w.(tables := Evict(zones[tz], w.tables, answer));
    assert (ops + [History.EvictOp(tz, answer)])[..|ops|] == ops;
  }

  /** The next value up, when too few details are at or below this one. */
  lemma NextAnswer(details: map<DetailKey, int>, at: int) returns (next: int)
    requires details.Keys != UpTo(details, at)
    ensures exists k :: k in details && details[k] == next
    ensures |Below(details, next)| == |UpTo(details, at)| < |UpTo(details, next)|
  {
    var above := details.Keys - UpTo(details, at);
    next := LeastAbove(details, above);
    var k :| k in above && details[k] == next;
    assert Below(details, next) == UpTo(details, at);
    Subset(UpTo(details, at) + {k}, UpTo(details, next));
  }

  /** The oldest-details query always has an answer. */
  lemma {:induction false} OldestAnswered(details: map<DetailKey, int>, n: nat) returns (at: int)
    requires details != map[] && 0 < n
    ensures exists k :: k in details && details[k] == at
    ensures |Below(details, at)| < n
    ensures |UpTo(details, at)| >= n || UpTo(details, at) == details.Keys
  {
    if n == 1 {
      at := LeastAbove(details, details.Keys);
      assert Below(details, at) == {};
      var k :| k in details && details[k] == at;
      assert k in UpTo(details, at);
    } else {
      at := OldestAnswered(details, n - 1);
      if |UpTo(details, at)| == n - 1 && UpTo(details, at) != details.Keys {
        at := NextAnswer(details, at);
      }
    }
  }

  ghost function Below(details: map<DetailKey, int>, at: int): set<DetailKey> { set k | k in details && details[k] < at }

  ghost function UpTo(details: map<DetailKey, int>, at: int): set<DetailKey> { set k | k in details && details[k] <= at }

  lemma Subset(a: set<DetailKey>, b: set<DetailKey>)
    requires a <= b
    ensures |a| <= |b|
  {
    assert b == a + (b - a);
  }

  lemma {:induction false} LeastAbove(details: map<DetailKey, int>, keys: set<DetailKey>) returns (at: int)
    requires keys != {} && keys <= details.Keys
    ensures exists k :: k in keys && details[k] == at
    ensures forall k :: k in keys ==> at <= details[k]
    decreases keys
  {
    var k :| k in keys;
    at := details[k];
    if keys != {k} {
      var rest := LeastAbove(details, keys - {k});
      if rest < at {
        var j :| j in keys - {k} && details[j] == rest;
        at := rest;
      }
    }
  }

  lemma ChunkShrinks(details: map<DetailKey, int>, at: int)
    requires exists k :: k in details && details[k] == at
    ensures |KeepDetails(details, at + 1)| < |details|
  {
    var k :| k in details && details[k] == at;
    var kept := KeepDetails(details, at + 1).Keys;
    assert kept <= details.Keys - {k};
    assert details.Keys - {k} == kept + (details.Keys - {k} - kept);
    assert details.Keys == (details.Keys - {k}) + {k};
  }

  /** The rows of one resolution. */
  function RowsAt(rows: seq<MetricRow>, res: Resolution): nat {
    if rows == [] then 0 else (if rows[0].key.res == res then 1 else 0) + RowsAt(rows[1..], res)
  }

  /** What was deleted: details, minute rows and day rows. */
  datatype Deleted = Deleted(details: int, minutes: int, days: int) {
    function Plus(d: Deleted): Deleted { Deleted(details + d.details, minutes + d.minutes, days + d.days) }
  }

  /** What t' no longer has of t. */
  function Lost(t: Tables, t': Tables): Deleted {
    Deleted(|t.details| - |t'.details|, RowsAt(t.metrics, Minute) - RowsAt(t'.metrics, Minute), RowsAt(t.metrics, Day) - RowsAt(t'.metrics, Day))
  }

  lemma LostAdds(t: Tables, u: Tables, v: Tables)
    ensures Lost(t, v) == Lost(t, u).Plus(Lost(u, v))
  {}

  /** A deletion takes rows of its own resolution only. */
  lemma {:induction false} KeepCounts(rows: seq<MetricRow>, res: Resolution, from: int)
    ensures var kept := KeepMetrics(rows, res, from);
            && |rows| - |kept| == RowsAt(rows, res) - RowsAt(kept, res) >= 0
            && forall other :: other != res ==> RowsAt(kept, other) == RowsAt(rows, other)
  {
    if rows != [] {
      KeepCounts(rows[1..], res, from);
      var kept := KeepMetrics(rows, res, from);
      assert rows[0].key.res != res || rows[0].key.bucket >= from ==> kept[1..] == KeepMetrics(rows[1..], res, from);
    }
  }

  lemma {:induction false} OldestShrinks(rows: seq<MetricRow>, res: Resolution)
    requires OldestBucket(rows, res).Some?
    ensures |KeepMetrics(rows, res, OldestBucket(rows, res).value + 1)| < |rows|
  {
    var from := OldestBucket(rows, res).value + 1;
    KeepCounts(rows[1..], res, from);
    if rows[0].key.res != res || rows[0].key.bucket >= from {
      OldestShrinks(rows[1..], res);
    }
  }

  lemma OldestExhausts(rows: seq<MetricRow>)
    ensures OldestBucket(rows, Minute).None? && OldestBucket(rows, Day).None? <==> rows == []
  {}

  class Store {
    const readOnly: bool
    var tables: Tables
    var pressure: bool
    ghost var history: seq<Observation>

    constructor (readOnly: bool)
      ensures this.readOnly == readOnly && tables == EMPTY_TABLES && !pressure && history == []
    {
      this.readOnly := readOnly;
      tables := EMPTY_TABLES;
      pressure := false;
      history := [];
    }

    /** Either the whole transaction is committed or nothing changes but the pressure flag. */
    method Ingest(zones: map<string, Grid>, b: Batch, overBudget: bool, full: bool) returns (r: Result<()>)
      requires AllRegular(zones)
      modifies this
      ensures readOnly ==> r == Err(ReadOnly) && tables == old(tables) && history == old(history) && pressure == old(pressure)
      ensures var storage := Storage(old(pressure), overBudget, full);
              var s := Ledger.Ingest(zones, old(tables), b, storage);
              && (!readOnly && s.Ok? ==>
                    r == Ok(()) && tables == s.value.tables && history == old(history) + s.value.accepted && pressure == old(pressure))
              && (!readOnly && s.Err? ==>
                    && r == Err(s.error) && tables == old(tables) && history == old(history)
                    && pressure == (old(pressure) || Fills(zones, b, storage)))
    {
      if readOnly {
        return Err(ReadOnly);
      }
      if BatchError(b).Some? {
        return Err(BatchError(b).value);
      }
      if ZoneName(b) !in zones {
        return Err(UnknownTimezone);
      }
      if (pressure && !b.compact) || overBudget {
        return Err(StorageLimit);
      }
      if full {
        pressure := true;
        return Err(StorageLimit);
      }
      var days := zones[ZoneName(b)];
      var bound := Bind(tables, b);
      if bound.Err? {
        return Err(bound.error);
      }
      var drops := DropsOf(tables, b.sourceId);
      var events := IngestEvents(days, Tx(bound.value, 0, []), b.sourceId, b.events);
      if events.Err? {
        return Err(events.error);
      }
      var deltas := IngestDeltas(days, events.value, b.sourceId, b.deltas);
      if deltas.Err? {
        return Err(deltas.error);
      }
      var covered := CoverBatch(days, deltas.value.tables, b);
      if covered.Err? {
        return Err(covered.error);
      }
      var saved := SaveCheckpoint(covered.value, b);
      if saved.Err? {
        return Err(saved.error);
      }
      tables := SaveStatus(saved.value, b, drops, deltas.value.skipped);
      history := history + deltas.value.accepted;
      r := Ok(());
    }
  
    /** The eviction of one bucket of metric rows. */
    method EvictMetrics(days: Grid, minute: Option<int>, day: int) returns (deleted: Deleted)
      requires Regular(days) && minute == OldestBucket(tables.metrics, Minute)
      requires minute.None? ==> OldestBucket(tables.metrics, Day) == Some(day)
      modifies this`tables
      ensures tables == Evict(days, old(tables), None)
      ensures deleted == Lost(old(tables), tables) && deleted.minutes + deleted.days > 0
    {
      var was := tables;
      if minute.Some? {
        var kept := KeepMetrics(was.metrics, Minute, minute.value + 1);
        OldestShrinks(was.metrics, Minute);
        KeepCounts(was.metrics, Minute, minute.value + 1);
        tables := was.(metrics := kept, coverage := KeepCoverage(was.coverage, Minute, minute.value + 1),
                       minuteCutoff := Raise(was.minuteCutoff, minute.value + 60_000));
        deleted := Deleted(0, |was.metrics| - |kept|, 0);
      } else {
        var next := UnixMilli(days.after(FromMillis(day)));
        var kept := KeepMetrics(was.metrics, Day, day + 1);
        OldestShrinks(was.metrics, Day);
        KeepCounts(was.metrics, Day, day + 1);
        tables := was.(metrics := kept, imports := KeepImports(was.imports, next),
                       coverage := KeepCoverage(was.coverage, Day, day + 1), dayCutoff := Raise(was.dayCutoff, next));
        deleted := Deleted(0, 0, |was.metrics| - |kept|);
      }
    }

    /** One eviction transaction. The answer of its first query is given. */
    method EvictOldest(days: Grid, oldest: Option<int>) returns (removed: bool, deleted: Deleted)
      requires Regular(days) && OldestDetails(tables.details, oldest)
      modifies this`tables
      ensures tables == Evict(days, old(tables), oldest)
      ensures deleted == Lost(old(tables), tables)
      ensures removed <==> !Drained(old(tables))
      ensures removed ==> deleted.details > 0 || deleted.minutes + deleted.days > 0
    {
      if oldest.Some? {
        var was := tables.details;
        ChunkShrinks(was, oldest.value);
        tables := tables.(details := KeepDetails(was, oldest.value + 1), detailCutoff := Raise(tables.detailCutoff, oldest.value + 1));
        return true, Deleted(|was| - |tables.details|, 0, 0);
      }
      OldestExhausts(tables.metrics);
      var minute, day := OldestBucket(tables.metrics, Minute), OldestBucket(tables.metrics, Day);
      if minute.None? && day.None? {
        return false, Deleted(0, 0, 0);
      }
      removed := true;
      deleted := EvictMetrics(days, minute, if day.Some? then day.value else 0);
    }

    /** The eviction passes of Prune. */
    method EvictWhileOver(days: Grid, overTarget: nat -> bool, oldest: map<DetailKey, int> -> Option<int>) returns (deleted: Deleted)
      requires Regular(days) && forall d :: OldestDetails(d, oldest(d))
      modifies this`tables
      ensures tables == Evicted(days, old(tables), overTarget, oldest, 0)
      ensures deleted == Lost(old(tables), tables)
      ensures exists n: nat :: EndedAfter(overTarget, tables, n)
    {
      ghost var was := tables;
      var pass := 0;
      deleted := Deleted(0, 0, 0);
      while overTarget(pass) && pass < MAX_PASSES
        invariant 0 <= pass <= MAX_PASSES && deleted == Lost(was, tables) && AllOver(overTarget, pass)
        invariant Evicted(days, tables, overTarget, oldest, pass) == Evicted(days, was, overTarget, oldest, 0)
      {
        ghost var before := tables;
        var removed, more := EvictOldest(days, oldest(tables.details));
        if !removed {
          assert EndedAfter(overTarget, tables, pass);
          return;
        }
        LostAdds(was, before, tables);
        deleted := deleted.Plus(more);
        pass := pass + 1;
      }
      assert EndedAfter(overTarget, tables, pass);
    }

    /** The deletions by time, each counted. */
    method Expire(h: Horizon) returns (deleted: Deleted)
      modifies this`tables
      ensures tables == Ledger.Prune(old(tables), h) && deleted == Lost(old(tables), tables)
    {
      var minute, day := UnixMilli(TruncateMinute(h.minute)), UnixMilli(h.day);
      var was := tables;
      var later := KeepMetrics(was.metrics, Minute, minute);
      KeepCounts(was.metrics, Minute, minute);
      KeepCounts(later, Day, day);
      tables := Ledger.Prune(was, h);
      deleted := Deleted(|was.details| - |tables.details|, |was.metrics| - |later|, |later| - |tables.metrics|);
    }

    /** Time-based deletion, then eviction while the measured pages stay over target. The
        page measurements and the query's answers are given. */
    method Prune(days: Grid, h: Horizon, highWater: bool, overTarget: nat -> bool, oldest: map<DetailKey, int> -> Option<int>, stillHigh: bool)
        returns (r: Result<Deleted>)
      requires Regular(days) && forall d :: OldestDetails(d, oldest(d))
      modifies this`tables, this`pressure
      ensures readOnly ==> r == Err(ReadOnly) && tables == old(tables) && pressure == old(pressure)
      ensures !readOnly ==>
                && r == Ok(Lost(old(tables), tables)) && pressure == stillHigh
                && tables == (if old(pressure) || highWater then Evicted(days, Ledger.Prune(old(tables), h), overTarget, oldest, 0)
                              else Ledger.Prune(old(tables), h))
      ensures !readOnly ==> forall m :: IsMarks(h, m) ==>
                && NoneExpired(tables, m)
                && (if old(pressure) || highWater then PartOf(old(tables), tables)
                    else OnlyExpired(old(tables), tables, m) && AllRisen(old(tables), tables, m))
    {
      if readOnly {
        return Err(ReadOnly);
      }
      ghost var was := tables;
      var deleted := Expire(h);
      if pressure || highWater {
        ghost var expired := tables;
        EvictedIsPart(days, expired, overTarget, oldest, 0);
        var more := EvictWhileOver(days, overTarget, oldest);
        LostAdds(was, expired, tables);
        deleted := deleted.Plus(more);
      }
      ExpiredAndEvicted(was, h, tables);
      pressure := stillHigh;
      r := Ok(deleted);
    }
  }
}
