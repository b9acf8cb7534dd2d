/** Consequences of the main theorem for single rows, days and totals. */
module Rollup {
  import opened Clock
  import opened Calendar
  import opened Allocation
  import opened Split
  import opened Ledger
  import opened History

  // ---------- the metric table's shape ----------

  predicate HasKey(rows: seq<MetricRow>, k: MetricKey) {
    rows != [] && (rows[0].key == k || HasKey(rows[1..], k))
  }

  /** The table's primary key. */
  predicate Distinct(rows: seq<MetricRow>) {
    rows == [] || (!HasKey(rows[1..], rows[0].key) && Distinct(rows[1..]))
  }

  ghost predicate InBucket(days: Grid, k: MetricKey) {
    IsBoundary(GridOf(days, k.res), k.bucket * 1_000_000)
  }

  ghost predicate AllInBuckets(days: Grid, rows: seq<MetricRow>) {
    rows == [] || (InBucket(days, rows[0].key) && AllInBuckets(days, rows[1..]))
  }

  /** The value a row lookup by primary key finds, zero when there is no row. */
  function RowValue(rows: seq<MetricRow>, k: MetricKey, c: Column): int {
    if rows == [] then 0 else if rows[0].key == k then Get(rows[0].amount, c) else RowValue(rows[1..], k, c)
  }

  ghost predicate WellShaped(days: Grid, rows: seq<MetricRow>) { Distinct(rows) && AllInBuckets(days, rows) }

  lemma {:induction false} UpsertShape(days: Grid, rows: seq<MetricRow>, add: MetricRow)
    requires WellShaped(days, rows) && InBucket(days, add.key) && Upsert(rows, add).Ok?
    ensures WellShaped(days, Upsert(rows, add).value)
    ensures forall k {:trigger HasKey(rows, k)} :: HasKey(Upsert(rows, add).value, k) ==> HasKey(rows, k) || k == add.key
  {
    if rows == [] {
      assert [add][1..] == [];
    } else if rows[0].key != add.key {
      UpsertShape(days, rows[1..], add);
      assert HasKey(rows[1..], rows[0].key) == false;
    }
  }

  lemma {:induction false} AddRowsShape(days: Grid, rows: seq<MetricRow>, adds: seq<MetricRow>)
    requires WellShaped(days, rows) && AllInBuckets(days, adds) && AddRows(rows, adds).Ok?
    ensures WellShaped(days, AddRows(rows, adds).value)
    decreases |adds|
  {
    if adds != [] {
      UpsertShape(days, rows, adds[0]);
      AddRowsShape(days, Upsert(rows, adds[0]).value, adds[1..]);
    }
  }

  lemma {:induction false} KeepShape(days: Grid, rows: seq<MetricRow>, res: Resolution, from: int)
    requires WellShaped(days, rows)
    ensures WellShaped(days, KeepMetrics(rows, res, from))
    ensures forall k {:trigger HasKey(rows, k)} :: HasKey(KeepMetrics(rows, res, from), k) ==> HasKey(rows, k)
  {
    if rows != [] {
      KeepShape(days, rows[1..], res, from);
      assert HasKey(rows[1..], rows[0].key) == false;
    }
  }

  lemma StampBack(g: Grid, t: Time)
    requires Regular(g) && IsBoundary(g, t)
    ensures UnixMilli(t) * 1_000_000 == t
  {
    BoundaryOnMinute(g, t);
    MinuteHasWholeMillis(t);
  }

  lemma {:induction false} PiecesInBuckets(days: Grid, res: Resolution, source: string, dims: Dimensions, up: Time -> int, down: Time -> int, at: Time, end: Time)
    requires Regular(GridOf(days, res))
    ensures AllInBuckets(days, PieceRows(res, source, dims, up, down, Pieces(GridOf(days, res), at, end)))
    decreases end - at
  {
    if at < end {
      var g := GridOf(days, res);
      EndIsBoundary(g, at);
      StampBack(g, g.floor(at));
      PiecesInBuckets(days, res, source, dims, up, down, Next(g, at, end), end);
    }
  }

  lemma {:induction false} InBucketsConcat(days: Grid, a: seq<MetricRow>, b: seq<MetricRow>)
    requires AllInBuckets(days, a) && AllInBuckets(days, b)
    ensures AllInBuckets(days, a + b)
  {
    if a == [] {
      assert a + b == b;
    } else {
      assert (a + b)[1..] == a[1..] + b;
      InBucketsConcat(days, a[1..], b);
    }
  }

  lemma OneInBucket(days: Grid, row: MetricRow, t: Time)
    requires Regular(GridOf(days, row.key.res)) && IsBoundary(GridOf(days, row.key.res), t) && row.key.bucket == UnixMilli(t)
    ensures AllInBuckets(days, [row])
  {
    StampBack(GridOf(days, row.key.res), t);
    assert [row][1..] == [];
  }

  lemma EventRowInBucket(days: Grid, g: Grid, res: Resolution, o: Observation)
    requires Regular(g) && g == GridOf(days, res) && o.EventSeen?
    ensures AllInBuckets(days, [EventRow(res, g.floor(o.at), o.source, o.dims, o.at, o.count)])
  {
    EndIsBoundary(g, o.at);
    OneInBucket(days, EventRow(res, g.floor(o.at), o.source, o.dims, o.at, o.count), g.floor(o.at));
  }

  lemma EventInBuckets(days: Grid, o: Observation)
    requires Regular(days) && o.EventSeen?
    ensures AllInBuckets(days, RowsOf(days, o))
  {
    MinutesRegular();
    EventRowInBucket(days, Minutes(), Minute, o);
    EventRowInBucket(days, days, Day, o);
    var minute := EventRow(Minute, Minutes().floor(o.at), o.source, o.dims, o.at, o.count);
    var day := EventRow(Day, days.floor(o.at), o.source, o.dims, o.at, o.count);
    InBucketsConcat(days, [minute], [day]);
    assert RowsOf(days, o) == [minute] + [day];
  }

  lemma IntervalInBuckets(days: Grid, res: Resolution, o: Observation)
    requires Regular(days) && o.IntervalSeen?
    ensures AllInBuckets(days, IntervalRows(days, res, o.source, o.dims, o.start, o.end, o.up, o.down))
  {
    MinutesRegular();
    if o.start < o.end {
      PiecesInBuckets(days, res, o.source, o.dims, Curve(o.up, o.start, o.end), Curve(o.down, o.start, o.end), o.start, o.end);
    }
  }

  lemma RowsInBuckets(days: Grid, o: Observation)
    requires Regular(days) && (o.DayImported? ==> IsBoundary(days, o.start))
    ensures AllInBuckets(days, RowsOf(days, o))
  {
    match o
    case EventSeen(_, _, _, _, _) => EventInBuckets(days, o);
    case IntervalSeen(source, _, dims, start, end, up, down) =>
      IntervalInBuckets(days, Minute, o);
      IntervalInBuckets(days, Day, o);
      InBucketsConcat(days, IntervalRows(days, Minute, source, dims, start, end, up, down), IntervalRows(days, Day, source, dims, start, end, up, down));
    case DayImported(source, _, dims, start, end, up, down) =>
      OneInBucket(days, ImportRow(source, dims, start, end, up, down), start);
  }

  // ---------- an invariant of every run ----------

  /** Imported days are only accepted from sources marked as having coarse days. */
  predicate CoarseMarked(t: Tables, h: seq<Observation>) {
    forall o :: o in h && o.DayImported? ==> o.source in t.sources && t.sources[o.source].coarseDay
  }

  ghost predicate Healthy(days: Grid, t: Tables, h: seq<Observation>) {
    WellShaped(days, t.metrics) && CoarseMarked(t, h)
  }

  ghost predicate Sound(days: Grid, tx: Tx, h: seq<Observation>) { Healthy(days, tx.tables, h + tx.accepted) }

  lemma AcceptSound(days: Grid, tx: Tx, o: Observation, h: seq<Observation>)
    requires Regular(days) && Accept(days, tx, o).Ok? && Sound(days, tx, h)
    requires o.DayImported? ==> IsBoundary(days, o.start) && o.source in tx.tables.sources && tx.tables.sources[o.source].coarseDay
    ensures Sound(days, Accept(days, tx, o).value, h)
  {
    RowsInBuckets(days, o);
    AddRowsShape(days, tx.tables.metrics, RowsOf(days, o));
    assert h + (tx.accepted + [o]) == (h + tx.accepted) + [o];
  }

  lemma {:induction false} EventsSound(days: Grid, tx: Tx, source: string, events: seq<Event>, h: seq<Observation>)
    requires Regular(days) && AddEvents(days, tx, source, events).Ok? && Sound(days, tx, h)
    ensures Sound(days, AddEvents(days, tx, source, events).value, h)
    decreases |events|
  {
    if events != [] {
      var e := events[0];
      var key := DetailKey(source, e.id, EventDetail);
      if UnixMilli(e.at) >= Cut(tx.tables.detailCutoff) && key !in tx.tables.details {
        AcceptSound(days, tx.(tables := tx.tables.(details := tx.tables.details[key := Millis(e.at)])),
                    EventSeen(source, e.id, Normalize(e.dims), e.at, if e.count == 0 then 1 else e.count), h);
      }
      EventsSound(days, AddEvent(days, tx, source, e).value, source, events[1..], h);
    }
  }

  lemma DeltaSound(days: Grid, tx: Tx, source: string, d: Delta, h: seq<Observation>)
    requires Regular(days) && source in tx.tables.sources && AddDelta(days, tx, source, d).Ok? && Sound(days, tx, h)
    ensures Sound(days, AddDelta(days, tx, source, d).value, h)
  {
    var t := tx.tables;
    if d.granularity == "day" {
      if UnixMilli(d.start) >= Cut(t.dayCutoff) && ImportKey(source, d.id) !in t.imports {
        AcceptSound(days, tx.(tables := t.(imports := t.imports[ImportKey(source, d.id) := UnixMilli(d.start)],
                                           sources := t.sources[source := t.sources[source].(coarseDay := true)])),
                    DayImported(source, d.id, Normalize(d.dims), d.start, d.end, d.up, d.down), h);
      }
    } else {
      var key := DetailKey(source, d.id, DeltaDetail);
      if UnixMilli(d.end) > Cut(t.detailCutoff) && key !in t.details {
        AcceptSound(days, tx.(tables := t.(details := t.details[key := Millis(d.end)])),
                    IntervalSeen(source, d.id, Normalize(d.dims), d.start, d.end, d.up, d.down), h);
      }
    }
  }

  lemma {:induction false} DeltasSound(days: Grid, tx: Tx, source: string, deltas: seq<Delta>, h: seq<Observation>)
    requires Regular(days) && source in tx.tables.sources && AddDeltas(days, tx, source, deltas).Ok? && Sound(days, tx, h)
    ensures Sound(days, AddDeltas(days, tx, source, deltas).value, h)
    decreases |deltas|
  {
    if deltas != [] {
      DeltaSound(days, tx, source, deltas[0], h);
      DeltasSound(days, AddDelta(days, tx, source, deltas[0]).value, source, deltas[1..], h);
    }
  }

  lemma FinishSound(days: Grid, tx: Tx, b: Batch, drops: int, h: seq<Observation>)
    requires Regular(days) && b.sourceId in tx.tables.sources && Finish(days, tx, b, drops).Ok? && Sound(days, tx, h)
    ensures Sound(days, Finish(days, tx, b, drops).value, h)
  {}

  lemma TransactSound(days: Grid, t: Tables, b: Batch, h: seq<Observation>)
    requires Regular(days) && Transact(days, t, b).Ok? && Healthy(days, t, h)
    ensures Sound(days, Transact(days, t, b).value, h)
  {
    var start := Tx(Bind(t, b).value, 0, []);
    assert h + [] == h;
    EventsSound(days, start, b.sourceId, b.events, h);
    var events := AddEvents(days, start, b.sourceId, b.events).value;
    DeltasSound(days, events, b.sourceId, b.deltas, h);
    FinishSound(days, Observe(days, t, b).value, b, DropsOf(t, b.sourceId), h);
  }

  lemma RetainHealthy(zones: map<string, Grid>, t: Tables, op: Op, days: Grid, h: seq<Observation>)
    requires AllRegular(zones) && Healthy(days, t, h)
    ensures Healthy(days, Retain(zones, t, op), h)
  {
    match op
    case IngestOp(_, _) =>
    case PruneOp(z) =>
      var minute := UnixMilli(TruncateMinute(z.minute));
      KeepShape(days, t.metrics, Minute, minute);
      KeepShape(days, KeepMetrics(t.metrics, Minute, minute), Day, UnixMilli(z.day));
    case EvictOp(tz, oldest) =>
      var minute, day := OldestBucket(t.metrics, Minute), OldestBucket(t.metrics, Day);
      if minute.Some? { KeepShape(days, t.metrics, Minute, minute.value + 1); }
      if day.Some? { KeepShape(days, t.metrics, Day, day.value + 1); }
  }

  lemma RetainZone(zones: map<string, Grid>, t: Tables, op: Op)
    requires AllRegular(zones)
    ensures Retain(zones, t, op).timezone == t.timezone
  {}

  /** In every reachable ledger the metric table keeps its primary key, files every row
      under a bucket that exists, and marks every source whose days were imported. */
  lemma {:induction false} RunHealthy(zones: map<string, Grid>, ops: seq<Op>, days: Grid)
    requires AllRegular(zones) && Pinned(zones, Run(zones, ops).tables, days)
    ensures Healthy(days, Run(zones, ops).tables, Run(zones, ops).history)
  {
    if ops != [] {
      var before := ops[..|ops| - 1];
      var op := ops[|ops| - 1];
      var w := Run(zones, before);
      if !op.IngestOp? {
        RetainZone(zones, w.tables, op);
        RunHealthy(zones, before, days);
        RetainHealthy(zones, w.tables, op, days, w.history);
      } else if Ingest(zones, w.tables, op.batch, op.storage).Ok? {
        TransactFrame(zones[ZoneName(op.batch)], w.tables, op.batch);
        RunHealthy(zones, before, days);
        TransactSound(days, w.tables, op.batch, w.history);
      } else {
        RunHealthy(zones, before, days);
      }
    }
  }

  // ---------- consequences ----------

  function Exactly(k: MetricKey): (string, Dimensions) -> bool { (s, d) => s == k.source && d == k.dims }

  /** The question whose answer is the single row with key k. */
  function RowFilter(days: Grid, k: MetricKey, c: Column): Filter {
    var lo := k.bucket * 1_000_000;
    Filter(Exactly(k), k.res, lo, GridOf(days, k.res).after(lo), c)
  }

  lemma RowFilterFinds(days: Grid, k: MetricKey, c: Column, row: MetricKey)
    requires Regular(GridOf(days, k.res)) && InBucket(days, k) && InBucket(days, row)
    ensures Matches(RowFilter(days, k, c), row) <==> row == k
  {
    var g := GridOf(days, k.res);
    var f := RowFilter(days, k, c);
    if Matches(f, row) || row == k {
      EndIsBoundary(g, f.lo);
      BucketVisible(g, f, row.bucket * 1_000_000);
    }
  }

  lemma {:induction false} RowIsAnswer(days: Grid, rows: seq<MetricRow>, k: MetricKey, c: Column)
    requires Regular(GridOf(days, k.res)) && InBucket(days, k) && WellShaped(days, rows)
    ensures SumRows(rows, RowFilter(days, k, c)) == RowValue(rows, k, c)
    ensures !HasKey(rows, k) ==> RowValue(rows, k, c) == 0
  {
    if rows != [] {
      RowIsAnswer(days, rows[1..], k, c);
      RowFilterFinds(days, k, c, rows[0].key);
    }
  }

  /** Every source with imported days is outside the question. */
  predicate NoImports(h: seq<Observation>, f: Filter) {
    forall o :: o in h && o.DayImported? ==> !f.keep(o.source, o.dims)
  }

  /** Away from imported days an observation contributes the same at both resolutions. */
  lemma {:induction false} ResolutionsAgree(h: seq<Observation>, f: Filter)
    requires NoImports(h, f)
    ensures Expected(h, f.(res := Day)) == Expected(h, f.(res := Minute))
  {
    if h != [] {
      assert h[|h| - 1] in h;
      ResolutionsAgree(h[..|h| - 1], f);
    }
  }

  /** Over whole days that retention has not reached, day rows and minute rows hold the
      same totals, for every choice of sources without imported days and of dimensions. */
  lemma DaysEqualMinutes(zones: map<string, Grid>, ops: seq<Op>, days: Grid, f: Filter)
    requires AllRegular(zones) && Regular(days) && OnGrid(days, f)
    requires Pinned(zones, Run(zones, ops).tables, days)
    requires Retained(Run(zones, ops).tables, f.(res := Day)) && Retained(Run(zones, ops).tables, f.(res := Minute))
    requires forall s, d :: s in Run(zones, ops).tables.sources && Run(zones, ops).tables.sources[s].coarseDay ==> !f.keep(s, d)
    ensures SumRows(Run(zones, ops).tables.metrics, f.(res := Day)) == SumRows(Run(zones, ops).tables.metrics, f.(res := Minute))
  {
    BoundaryOnMinute(days, f.lo);
    BoundaryOnMinute(days, f.hi);
    LedgerAnswersFromHistory(zones, ops, days, f.(res := Day));
    LedgerAnswersFromHistory(zones, ops, days, f.(res := Minute));
    RunHealthy(zones, ops, days);
    ResolutionsAgree(Run(zones, ops).history, f);
  }

  /** The single day row of an attribution tuple is the sum of its minute rows. */
  lemma DayRowIsSumOfMinuteRows(zones: map<string, Grid>, ops: seq<Op>, days: Grid, day: Time, source: string, dims: Dimensions, c: Column)
    requires AllRegular(zones) && Regular(days) && IsBoundary(days, day)
    requires Pinned(zones, Run(zones, ops).tables, days)
    requires var t := Run(zones, ops).tables;
             && Cut(t.minuteCutoff) <= UnixMilli(day) && Cut(t.dayCutoff) <= UnixMilli(day) && 0 < UnixMilli(day)
             && (source in t.sources ==> !t.sources[source].coarseDay)
    ensures var rows := Run(zones, ops).tables.metrics;
            RowValue(rows, MetricKey(Day, UnixMilli(day), source, dims), c) ==
            SumRows(rows, Filter((s, d) => s == source && d == dims, Minute, day, days.after(day), c))
  {
    var k := MetricKey(Day, UnixMilli(day), source, dims);
    var f := RowFilter(days, k, c);
    StampBack(days, day);
    EndIsBoundary(days, day);
    RunHealthy(zones, ops, days);
    RowIsAnswer(days, Run(zones, ops).tables.metrics, k, c);
    DaysEqualMinutes(zones, ops, days, f);
    var g := Filter((s, d) => s == source && d == dims, Minute, day, days.after(day), c);
    SameAnswer(Run(zones, ops).tables.metrics, f.(res := Minute), g);
  }

  lemma {:induction false} SameAnswer(rows: seq<MetricRow>, f: Filter, g: Filter)
    requires f.(keep := g.keep) == g && forall s, d :: f.keep(s, d) == g.keep(s, d)
    ensures SumRows(rows, f) == SumRows(rows, g)
  {
    if rows != [] {
      SameAnswer(rows[1..], f, g);
    }
  }

  // ---------- conservation ----------

  /** Everything an observation measured, whatever buckets it fell in. */
  function Whole(o: Observation, f: Filter): int {
    match o
    case EventSeen(_, _, _, _, count) => if f.column.Events? then count else 0
    case IntervalSeen(_, _, _, _, _, up, down) => Get(Amount(up, down, 0), f.column)
    case DayImported(_, _, _, _, _, up, down) => if f.res.Day? then Get(Amount(up, down, 0), f.column) else 0
  }

  function Total(h: seq<Observation>, f: Filter): int {
    if h == [] then 0
    else
      var o := h[|h| - 1];
      Total(h[..|h| - 1], f) + if f.keep(o.source, o.dims) then Whole(o, f) else 0
  }

  /** The question's range covers the observation, which is one the ledger can accept. */
  predicate Covers(f: Filter, o: Observation) {
    match o
    case EventSeen(_, _, _, at, _) => f.lo <= at < f.hi
    case IntervalSeen(_, _, _, start, end, up, down) => f.lo <= start < end <= f.hi && 0 <= up && 0 <= down
    case DayImported(_, _, _, start, _, _, _) => f.lo <= start < f.hi
  }

  lemma {:induction false} ExpectedIsTotal(h: seq<Observation>, f: Filter)
    requires forall o :: o in h && f.keep(o.source, o.dims) ==> Covers(f, o)
    ensures Expected(h, f) == Total(h, f)
  {
    if h != [] {
      var o := h[|h| - 1];
      assert o in h;
      ExpectedIsTotal(h[..|h| - 1], f);
      if o.IntervalSeen? && f.keep(o.source, o.dims) {
        ShareLaws(o.up, o.start, o.end, f.lo, f.lo, f.hi);
        ShareLaws(o.down, o.start, o.end, f.lo, f.lo, f.hi);
      }
    }
  }

  /** Nothing is lost or counted twice: over a range that covers them, the rows of any
      choice of sources sum to exactly what the accepted observations measured. */
  lemma LedgerConserves(zones: map<string, Grid>, ops: seq<Op>, days: Grid, f: Filter)
    requires AllRegular(zones) && Regular(days) && Aligned(days, f)
    requires Pinned(zones, Run(zones, ops).tables, days) && Retained(Run(zones, ops).tables, f)
    requires forall o :: o in Run(zones, ops).history && f.keep(o.source, o.dims) ==> Covers(f, o)
    ensures SumRows(Run(zones, ops).tables.metrics, f) == Total(Run(zones, ops).history, f)
  {
    LedgerAnswersFromHistory(zones, ops, days, f);
    ExpectedIsTotal(Run(zones, ops).history, f);
  }
}
