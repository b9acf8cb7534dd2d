/** What the metric tables mean. */
module History {
  import opened Wrappers
  import opened Clock
  import opened Calendar
  import opened Allocation
  import opened Split
  import opened Ledger

  // Every run of ingests and retention passes leaves them answering exactly as the accepted
  // observations themselves would.

  /** A question put to the metric table: one column, summed over any choice of
      sources and dimensions and the buckets of one resolution that start in [lo, hi). */
  datatype Filter = Filter(keep: (string, Dimensions) -> bool, res: Resolution, lo: Time, hi: Time, column: Column)

  predicate Matches(f: Filter, k: MetricKey) {
    k.res == f.res && f.keep(k.source, k.dims) && UnixMilli(f.lo) <= k.bucket < UnixMilli(f.hi)
  }

  function Seen(row: MetricRow, f: Filter): int {
    if Matches(f, row.key) then Get(row.amount, f.column) else 0
  }

  function SumRows(rows: seq<MetricRow>, f: Filter): int {
    if rows == [] then 0 else Seen(rows[0], f) + SumRows(rows[1..], f)
  }

  /** What one observation contributes to [f.lo, f.hi): an event counts where it happened,
      an interval by its share of elapsed time, an imported day only in day rows. */
  function Within(o: Observation, f: Filter): int {
    match o
    case EventSeen(_, _, _, at, count) => if f.column.Events? && f.lo <= at < f.hi then count else 0
    case IntervalSeen(_, _, _, start, end, up, down) =>
      if start >= end || f.column.Events? then 0
      else Share(Curve(if f.column.Up? then up else down, start, end), start, end, f.lo, f.hi)
    case DayImported(_, _, _, start, _, up, down) =>
      if f.res.Day? && f.lo <= start < f.hi then Get(Amount(up, down, 0), f.column) else 0
  }

  /** What an observation contributes to the answer of f. */
  function Part(o: Observation, f: Filter): int {
    if f.keep(o.source, o.dims) then Within(o, f) else 0
  }

  function Expected(h: seq<Observation>, f: Filter): int {
    if h == [] then 0 else Expected(h[..|h| - 1], f) + Part(h[|h| - 1], f)
  }

  lemma ExpectedAppend(h: seq<Observation>, o: Observation, f: Filter)
    ensures Expected(h + [o], f) == Expected(h, f) + Part(o, f)
  {
    assert (h + [o])[..|h|] == h;
  }

  // ---------- runs ----------

  datatype Op =
    | IngestOp(batch: Batch, storage: Storage)
    | PruneOp(horizon: Horizon)
    | EvictOp(zone: string, oldest: Option<int>)

  /** The tables, and beside them every observation ever accepted. */
  datatype World = World(tables: Tables, history: seq<Observation>)

  /** A retention pass. */
  ghost function Retain(zones: map<string, Grid>, t: Tables, op: Op): Tables
  {
    match op
    case IngestOp(_, _) => t
    case PruneOp(h) => Prune(t, h)
    case EvictOp(tz, oldest) => if tz in zones && OldestDetails(t.details, oldest) then Evict(zones[tz], t, oldest) else t
  }

  ghost function Apply(zones: map<string, Grid>, w: World, op: Op): World
  {
    match op
    case IngestOp(b, storage) =>
      var r := Ingest(zones, w.tables, b, storage);
      if r.Ok? then World(r.value.tables, w.history + r.value.accepted) else w
    case PruneOp(_) => w.(tables := Retain(zones, w.tables, op))
    case EvictOp(_, _) => w.(tables := Retain(zones, w.tables, op))
  }

  ghost function Run(zones: map<string, Grid>, ops: seq<Op>): World
  {
    if ops == [] then World(EMPTY_TABLES, [])
    else Apply(zones, Run(zones, ops[..|ops| - 1]), ops[|ops| - 1])
  }

  // ---------- one upsert, one delta, one batch ----------

  lemma {:induction false} UpsertAdds(rows: seq<MetricRow>, add: MetricRow, f: Filter)
    requires Upsert(rows, add).Ok?
    ensures SumRows(Upsert(rows, add).value, f) == SumRows(rows, f) + Seen(add, f)
  {
    if rows != [] && rows[0].key != add.key {
      UpsertAdds(rows[1..], add, f);
    }
  }

  ghost predicate OnGrid(g: Grid, f: Filter) {
    IsBoundary(g, f.lo) && IsBoundary(g, f.hi) && f.lo <= f.hi
  }

  /** The question's range consists of whole buckets of its resolution. */
  ghost predicate Aligned(days: Grid, f: Filter) { OnGrid(GridOf(days, f.res), f) }

  /** An aligned question sees a bucket exactly when it sees the instants in it. */
  lemma BucketVisible(g: Grid, f: Filter, t: Time)
    requires Regular(g) && OnGrid(g, f)
    ensures UnixMilli(f.lo) <= UnixMilli(g.floor(t)) < UnixMilli(f.hi) <==> f.lo <= t < f.hi
  {
    BoundarySeparates(g, f.lo, t);
    BoundarySeparates(g, f.hi, t);
    EndIsBoundary(g, t);
    StampsOrdered(g, f.lo, g.floor(t));
    StampsOrdered(g, f.hi, g.floor(t));
  }

  /** The piece starting at t takes exactly the part of a curve that lies in its bucket. */
  lemma ShareStep(g: Grid, c: Time -> int, t: Time, end: Time, f: Filter)
    requires Tiling(g) && OnGrid(g, f) && t < end
    ensures var n := Next(g, t, end);
            Share(c, t, end, f.lo, f.hi) == Share(c, n, end, f.lo, f.hi) + if f.lo <= t < f.hi then c(n) - c(t) else 0
  {
    BoundarySeparates(g, f.lo, t);
    BoundarySeparates(g, f.hi, t);
  }

  function CurveOf(f: Filter, up: Time -> int, down: Time -> int): Time -> int {
    if f.column.Up? then up else down
  }

  /** The rows of an interval's pieces sum to its share of the range asked about:
      the floors of the single pieces telescope. */
  lemma {:induction false} PiecesSum(g: Grid, source: string, dims: Dimensions, up: Time -> int, down: Time -> int, at: Time, end: Time, f: Filter)
    requires Regular(g) && OnGrid(g, f) && f.keep(source, dims) && !f.column.Events? && at <= end
    ensures SumRows(PieceRows(f.res, source, dims, up, down, Pieces(g, at, end)), f) ==
            Share(CurveOf(f, up, down), at, end, f.lo, f.hi)
    decreases end - at
  {
    if at < end {
      var n := Next(g, at, end);
      PiecesSum(g, source, dims, up, down, n, end, f);
      BucketVisible(g, f, at);
      ShareStep(g, CurveOf(f, up, down), at, end, f);
    }
  }

  lemma {:induction false} PiecesUnseen(res: Resolution, source: string, dims: Dimensions, up: Time -> int, down: Time -> int, pieces: seq<Piece>, f: Filter)
    requires res != f.res || !f.keep(source, dims) || f.column.Events?
    ensures SumRows(PieceRows(res, source, dims, up, down, pieces), f) == 0
  {
    if pieces != [] {
      PiecesUnseen(res, source, dims, up, down, pieces[1..], f);
    }
  }

  lemma {:induction false} SumConcat(a: seq<MetricRow>, b: seq<MetricRow>, f: Filter)
    ensures SumRows(a + b, f) == SumRows(a, f) + SumRows(b, f)
  {
    if a == [] {
      assert a + b == b;
    } else {
      assert (a + b)[1..] == a[1..] + b;
      SumConcat(a[1..], b, f);
    }
  }

  lemma SharesSum(g: Grid, o: Observation, f: Filter)
    requires Regular(g) && OnGrid(g, f) && o.IntervalSeen? && o.start < o.end && f.keep(o.source, o.dims) && !f.column.Events?
    ensures var up, down := Curve(o.up, o.start, o.end), Curve(o.down, o.start, o.end);
            SumRows(PieceRows(f.res, o.source, o.dims, up, down, Pieces(g, o.start, o.end)), f) == Part(o, f)
  {
    PiecesSum(g, o.source, o.dims, Curve(o.up, o.start, o.end), Curve(o.down, o.start, o.end), o.start, o.end, f);
  }

  lemma IntervalSum(days: Grid, res: Resolution, o: Observation, f: Filter)
    requires Regular(days) && Aligned(days, f) && o.IntervalSeen?
    ensures SumRows(IntervalRows(days, res, o.source, o.dims, o.start, o.end, o.up, o.down), f) ==
            if res == f.res then Part(o, f) else 0
  {
    if o.start < o.end {
      MinutesRegular();
      var up, down := Curve(o.up, o.start, o.end), Curve(o.down, o.start, o.end);
      if res == f.res && f.keep(o.source, o.dims) && !f.column.Events? {
        SharesSum(GridOf(days, res), o, f);
      } else {
        PiecesUnseen(res, o.source, o.dims, up, down, Pieces(GridOf(days, res), o.start, o.end), f);
      }
    }
  }

  /** The rows an observation adds sum, for every aligned question, to what the
      observation itself contributes. */
  lemma RowsSum(days: Grid, o: Observation, f: Filter)
    requires Regular(days) && Aligned(days, f)
    requires o.DayImported? ==> IsBoundary(days, o.start)
    ensures SumRows(RowsOf(days, o), f) == Part(o, f)
  {
    match o
    case EventSeen(source, _, dims, at, count) => EventSum(days, o, f);
    case IntervalSeen(source, _, dims, start, end, up, down) =>
      SumConcat(IntervalRows(days, Minute, source, dims, start, end, up, down), IntervalRows(days, Day, source, dims, start, end, up, down), f);
      IntervalSum(days, Minute, o, f);
      IntervalSum(days, Day, o, f);
    case DayImported(source, _, dims, start, end, up, down) =>
      if f.res.Day? { BucketVisible(days, f, start); }
      assert RowsOf(days, o)[1..] == [];
  }

  lemma EventRowSeen(g: Grid, res: Resolution, o: Observation, f: Filter)
    requires Regular(g) && o.EventSeen? && (res == f.res ==> OnGrid(g, f))
    ensures Seen(EventRow(res, g.floor(o.at), o.source, o.dims, o.at, o.count), f) == if res == f.res then Part(o, f) else 0
  {
    if res == f.res {
      BucketVisible(g, f, o.at);
    }
  }

  lemma EventSum(days: Grid, o: Observation, f: Filter)
    requires Regular(days) && Aligned(days, f) && o.EventSeen?
    ensures SumRows(RowsOf(days, o), f) == Part(o, f)
  {
    MinutesRegular();
    EventRowSeen(Minutes(), Minute, o, f);
    EventRowSeen(days, Day, o, f);
    var minute := EventRow(Minute, Minutes().floor(o.at), o.source, o.dims, o.at, o.count);
    var day := EventRow(Day, days.floor(o.at), o.source, o.dims, o.at, o.count);
    assert RowsOf(days, o) == [minute] + [day];
    SumConcat([minute], [day], f);
    SumOne(minute, f);
    SumOne(day, f);
  }

  lemma SumOne(row: MetricRow, f: Filter)
    ensures SumRows([row], f) == Seen(row, f)
  {
    assert [row][1..] == [];
  }

  lemma {:induction false} RowsRaise(rows: seq<MetricRow>, adds: seq<MetricRow>, f: Filter)
    requires AddRows(rows, adds).Ok?
    ensures SumRows(AddRows(rows, adds).value, f) == SumRows(rows, f) + SumRows(adds, f)
    decreases |adds|
  {
    if adds != [] {
      var more := Upsert(rows, adds[0]).value;
      UpsertAdds(rows, adds[0], f);
      RowsRaise(more, adds[1..], f);
    }
  }

  // ---------- one transaction ----------

  /** The tables and the history agree on f, with h the history before the transaction. */
  ghost predicate Agrees(tx: Tx, h: seq<Observation>, f: Filter) {
    SumRows(tx.tables.metrics, f) == Expected(h + tx.accepted, f)
  }

  lemma AcceptAgrees(days: Grid, tx: Tx, o: Observation, h: seq<Observation>, f: Filter)
    requires Regular(days) && Aligned(days, f)
    requires o.DayImported? ==> IsBoundary(days, o.start)
    requires Agrees(tx, h, f) && Accept(days, tx, o).Ok?
    ensures Agrees(Accept(days, tx, o).value, h, f)
  {
    RowsRaise(tx.tables.metrics, RowsOf(days, o), f);
    RowsSum(days, o, f);
    ExpectedAppend(h + tx.accepted, o, f);
    assert h + (tx.accepted + [o]) == (h + tx.accepted) + [o];
  }

  lemma {:induction false} EventsAgree(days: Grid, tx: Tx, source: string, events: seq<Event>, h: seq<Observation>, f: Filter)
    requires Regular(days) && Aligned(days, f) && Agrees(tx, h, f)
    requires AddEvents(days, tx, source, events).Ok?
    ensures Agrees(AddEvents(days, tx, source, events).value, h, f)
    decreases |events|
  {
    if events != [] {
      var e := events[0];
      var key := DetailKey(source, e.id, EventDetail);
      if UnixMilli(e.at) >= Cut(tx.tables.detailCutoff) && key !in tx.tables.details {
        AcceptAgrees(days, tx.(tables := tx.tables.(details := tx.tables.details[key := Millis(e.at)])),
                     EventSeen(source, e.id, Normalize(e.dims), e.at, if e.count == 0 then 1 else e.count), h, f);
      }
      EventsAgree(days, AddEvent(days, tx, source, e).value, source, events[1..], h, f);
    }
  }

  lemma DeltaAgrees(days: Grid, tx: Tx, source: string, d: Delta, h: seq<Observation>, f: Filter)
    requires Regular(days) && Aligned(days, f) && source in tx.tables.sources && Agrees(tx, h, f)
    requires AddDelta(days, tx, source, d).Ok?
    ensures Agrees(AddDelta(days, tx, source, d).value, h, f)
  {
    var t := tx.tables;
    if d.granularity == "day" {
      if UnixMilli(d.start) >= Cut(t.dayCutoff) && ImportKey(source, d.id) !in t.imports {
        AcceptAgrees(days, tx.(tables := t.(imports := t.imports[ImportKey(source, d.id) := UnixMilli(d.start)],
                                         sources := t.sources[source := t.sources[source].(coarseDay := true)])),
                     DayImported(source, d.id, Normalize(d.dims), d.start, d.end, d.up, d.down), h, f);
      }
    } else {
      var key := DetailKey(source, d.id, DeltaDetail);
      if UnixMilli(d.end) > Cut(t.detailCutoff) && key !in t.details {
        AcceptAgrees(days, tx.(tables := t.(details := t.details[key := Millis(d.end)])),
                     IntervalSeen(source, d.id, Normalize(d.dims), d.start, d.end, d.up, d.down), h, f);
      }
    }
  }

  lemma DeltaKeepsSource(days: Grid, tx: Tx, source: string, d: Delta)
    requires Regular(days) && source in tx.tables.sources && AddDelta(days, tx, source, d).Ok?
    ensures source in AddDelta(days, tx, source, d).value.tables.sources
  {}

  lemma {:induction false} DeltasAgree(days: Grid, tx: Tx, source: string, deltas: seq<Delta>, h: seq<Observation>, f: Filter)
    requires Regular(days) && Aligned(days, f) && source in tx.tables.sources && Agrees(tx, h, f)
    requires AddDeltas(days, tx, source, deltas).Ok?
    ensures Agrees(AddDeltas(days, tx, source, deltas).value, h, f)
    decreases |deltas|
  {
    if deltas != [] {
      var next := AddDelta(days, tx, source, deltas[0]).value;
      DeltaAgrees(days, tx, source, deltas[0], h, f);
      DeltaKeepsSource(days, tx, source, deltas[0]);
      DeltasAgree(days, next, source, deltas[1..], h, f);
    }
  }

  lemma TransactAgrees(days: Grid, t: Tables, b: Batch, h: seq<Observation>, f: Filter)
    requires Regular(days) && Aligned(days, f)
    requires Transact(days, t, b).Ok?
    requires SumRows(t.metrics, f) == Expected(h, f)
    ensures Agrees(Transact(days, t, b).value, h, f)
  {
    var start := Tx(Bind(t, b).value, 0, []);
    var tx := Observe(days, t, b).value;
    assert h + [] == h;
    EventsAgree(days, start, b.sourceId, b.events, h, f);
    DeltasAgree(days, AddEvents(days, start, b.sourceId, b.events).value, b.sourceId, b.deltas, h, f);
    FinishFrame(days, tx, b, DropsOf(t, b.sourceId));
  }

  lemma FinishFrame(days: Grid, tx: Tx, b: Batch, drops: int)
    requires b.sourceId in tx.tables.sources && Finish(days, tx, b, drops).Ok?
    ensures var tx' := Finish(days, tx, b, drops).value;
            && tx'.accepted == tx.accepted && tx'.skipped == tx.skipped && SameMarks(tx.tables, tx'.tables)
            && tx'.tables.metrics == tx.tables.metrics
            && tx'.tables.details == tx.tables.details && tx'.tables.imports == tx.tables.imports
  {}

  // ---------- retention ----------

  /** No retention pass has reached the range the question asks about. A day row at
      the epoch itself is never counted as retained: its eviction leaves no watermark. */
  predicate Retained(t: Tables, f: Filter) {
    if f.res.Minute? then t.minuteCutoff.None? || t.minuteCutoff.value <= UnixMilli(f.lo)
    else t.dayCutoff.None? || (t.dayCutoff.value <= UnixMilli(f.lo) && 0 < UnixMilli(f.lo))
  }

  lemma {:induction false} KeepPreserves(rows: seq<MetricRow>, res: Resolution, from: int, f: Filter)
    requires f.res == res ==> from <= UnixMilli(f.lo)
    ensures SumRows(KeepMetrics(rows, res, from), f) == SumRows(rows, f)
  {
    if rows != [] {
      KeepPreserves(rows[1..], res, from, f);
    }
  }

  lemma PruneKeeps(t: Tables, h: Horizon, f: Filter)
    requires Retained(Prune(t, h), f)
    ensures Retained(t, f) && SumRows(Prune(t, h).metrics, f) == SumRows(t.metrics, f)
  {
    var minute := UnixMilli(TruncateMinute(h.minute));
    KeepPreserves(t.metrics, Minute, minute, f);
    KeepPreserves(KeepMetrics(t.metrics, Minute, minute), Day, UnixMilli(h.day), f);
  }

  lemma NextDayLater(days: Grid, day: int)
    requires Regular(days) && day != 0
    ensures day < UnixMilli(days.after(FromMillis(day)))
  {
    var t := FromMillis(day);
    assert t + 60_000_000_000 <= days.after(t);
    MilliMonotone(t + 1_000_000, days.after(t));
    assert UnixMilli(t + 1_000_000) == day + 1;
  }

  lemma EvictKeeps(days: Grid, t: Tables, oldest: Option<int>, f: Filter)
    requires Regular(days)
    requires Retained(Evict(days, t, oldest), f)
    ensures Retained(t, f) && SumRows(Evict(days, t, oldest).metrics, f) == SumRows(t.metrics, f)
  {
    var minute := OldestBucket(t.metrics, Minute);
    var day := OldestBucket(t.metrics, Day);
    if oldest.None? && minute.Some? {
      KeepPreserves(t.metrics, Minute, minute.value + 1, f);
    } else if oldest.None? && day.Some? {
      if day.value != 0 { NextDayLater(days, day.value); }
      KeepPreserves(t.metrics, Day, day.value + 1, f);
    }
  }

  /** The eviction of a day leaves a watermark above it exactly when the day does not begin
      at the epoch, or an earlier pass left one: the stamp 0 reads back as "no time", and
      the day after that is centuries before. */
  lemma DayEvictionMarksIff(days: Grid, t: Tables)
    requires Regular(days) && days.after(ZERO_TIME) <= 0
    requires OldestBucket(t.metrics, Minute).None? && OldestBucket(t.metrics, Day).Some?
    ensures var day := OldestBucket(t.metrics, Day).value;
            day < Cut(Evict(days, t, None).dayCutoff) <==> day != 0 || 0 < Cut(t.dayCutoff)
  {
    var day := OldestBucket(t.metrics, Day).value;
    if day != 0 { NextDayLater(days, day); }
  }

  /** At the epoch: the only row is gone, and no watermark says so. */
  lemma EpochDayUnmarked(days: Grid)
    requires Regular(days) && days.after(ZERO_TIME) <= 0 && IsBoundary(days, 0)
    ensures var row := MetricRow(MetricKey(Day, 0, "s", NO_ATTRIBUTION), Amount(1, 0, 0), 0, 0);
            var t := EMPTY_TABLES.(metrics := [row]);
            var f := Filter((s, d) => true, Day, 0, days.after(0), Up);
            && Aligned(days, f) && SumRows(t.metrics, f) == 1
            && SumRows(Evict(days, t, None).metrics, f) == 0 && Cut(Evict(days, t, None).dayCutoff) <= UnixMilli(f.lo)
  {
    var row := MetricRow(MetricKey(Day, 0, "s", NO_ATTRIBUTION), Amount(1, 0, 0), 0, 0);
    var rows := [row];
    assert rows[1..] == [] && OldestBucket([], Minute).None? && OldestBucket([], Day).None?;
    assert OldestBucket(rows, Minute) == OldestBucket(rows[1..], Minute);
    assert OldestBucket(rows, Day) == Some(0);
    assert KeepMetrics(rows, Day, 1) == [];
    EndIsBoundary(days, 0);
    MilliMonotone(60_000_000_000, days.after(0));
  }

  // ---------- the main theorem ----------

  /** The recorded time zone is the one the question's boundaries are taken in. */
  ghost predicate Pinned(zones: map<string, Grid>, t: Tables, days: Grid) {
    t.timezone.Some? ==> t.timezone.value in zones && zones[t.timezone.value] == days
  }

  predicate SameMarks(t: Tables, t': Tables) {
    && t'.timezone == t.timezone
    && t'.detailCutoff == t.detailCutoff && t'.minuteCutoff == t.minuteCutoff && t'.dayCutoff == t.dayCutoff
  }

  /** Source rows are equal but for the coarse-day mark, which is never taken back. */
  predicate OnlyCoarser(s: map<string, Source>, s': map<string, Source>) {
    && s'.Keys == s.Keys
    && forall k :: k in s ==> s'[k] == s[k].(coarseDay := s'[k].coarseDay) && (s[k].coarseDay ==> s'[k].coarseDay)
  }

  /** Observations change no watermark, no coverage, no checkpoint, and only mark sources. */
  predicate SameFrame(t: Tables, t': Tables) {
    SameMarks(t, t') && t'.coverage == t.coverage && t'.checkpoints == t.checkpoints && OnlyCoarser(t.sources, t'.sources)
  }

  lemma {:induction false} EventsFrame(days: Grid, tx: Tx, source: string, events: seq<Event>)
    requires Regular(days) && AddEvents(days, tx, source, events).Ok?
    ensures SameFrame(tx.tables, AddEvents(days, tx, source, events).value.tables)
    decreases |events|
  {
    if events != [] {
      EventsFrame(days, AddEvent(days, tx, source, events[0]).value, source, events[1..]);
    }
  }

  lemma ImportFrame(days: Grid, tx: Tx, source: string, d: Delta)
    requires Regular(days) && source in tx.tables.sources && ImportDay(days, tx, source, d).Ok?
    ensures SameFrame(tx.tables, ImportDay(days, tx, source, d).value.tables)
  {}

  lemma IntervalFrame(days: Grid, tx: Tx, source: string, d: Delta)
    requires Regular(days) && AddInterval(days, tx, source, d).Ok?
    ensures SameFrame(tx.tables, AddInterval(days, tx, source, d).value.tables)
  {}

  lemma DeltaFrame(days: Grid, tx: Tx, source: string, d: Delta)
    requires Regular(days) && source in tx.tables.sources && AddDelta(days, tx, source, d).Ok?
    ensures SameFrame(tx.tables, AddDelta(days, tx, source, d).value.tables)
  {
    if d.granularity == "day" { ImportFrame(days, tx, source, d); } else { IntervalFrame(days, tx, source, d); }
  }

  lemma {:induction false} DeltasFrame(days: Grid, tx: Tx, source: string, deltas: seq<Delta>)
    requires Regular(days) && source in tx.tables.sources && AddDeltas(days, tx, source, deltas).Ok?
    ensures SameFrame(tx.tables, AddDeltas(days, tx, source, deltas).value.tables)
    decreases |deltas|
  {
    if deltas != [] {
      var next := AddDelta(days, tx, source, deltas[0]).value;
      DeltaFrame(days, tx, source, deltas[0]);
      DeltasFrame(days, next, source, deltas[1..]);
      FramesChain(tx.tables, next.tables, AddDeltas(days, tx, source, deltas).value.tables);
    }
  }

  lemma FramesChain(t: Tables, u: Tables, v: Tables)
    requires SameFrame(t, u) && SameFrame(u, v)
    ensures SameFrame(t, v)
  {}

  lemma ObserveFrame(days: Grid, t: Tables, b: Batch)
    requires Regular(days) && Observe(days, t, b).Ok?
    ensures Bind(t, b).Ok? && SameFrame(Bind(t, b).value, Observe(days, t, b).value.tables)
  {
    var start := Tx(Bind(t, b).value, 0, []);
    EventsFrame(days, start, b.sourceId, b.events);
    DeltasFrame(days, AddEvents(days, start, b.sourceId, b.events).value, b.sourceId, b.deltas);
  }

  lemma TransactFrame(days: Grid, t: Tables, b: Batch)
    requires Regular(days) && Transact(days, t, b).Ok?
    ensures SameMarks(t.(timezone := Some(ZoneName(b))), Transact(days, t, b).value.tables)
    ensures t.timezone.Some? ==> t.timezone.value == ZoneName(b)
  {
    ObserveFrame(days, t, b);
    FinishFrame(days, Observe(days, t, b).value, b, DropsOf(t, b.sourceId));
  }

  ghost predicate Synced(w: World, f: Filter) {
    SumRows(w.tables.metrics, f) == Expected(w.history, f)
  }

  lemma IngestKeeps(zones: map<string, Grid>, w: World, b: Batch, storage: Storage, days: Grid, f: Filter)
    requires AllRegular(zones) && Aligned(days, f)
    requires Ingest(zones, w.tables, b, storage).Ok?
    requires var w' := Apply(zones, w, IngestOp(b, storage)); Pinned(zones, w'.tables, days) && Retained(w'.tables, f)
    ensures Pinned(zones, w.tables, days) && Retained(w.tables, f)
    ensures Synced(w, f) ==> Synced(Apply(zones, w, IngestOp(b, storage)), f)
  {
    TransactFrame(zones[ZoneName(b)], w.tables, b);
    if Synced(w, f) {
      TransactAgrees(zones[ZoneName(b)], w.tables, b, w.history, f);
    }
  }

  lemma RetainKeeps(zones: map<string, Grid>, t: Tables, op: Op, days: Grid, f: Filter)
    requires AllRegular(zones) && Pinned(zones, Retain(zones, t, op), days) && Retained(Retain(zones, t, op), f)
    ensures Pinned(zones, t, days) && Retained(t, f)
    ensures SumRows(Retain(zones, t, op).metrics, f) == SumRows(t.metrics, f)
  {
    match op
    case IngestOp(_, _) =>
    case PruneOp(h) => PruneKeeps(t, h, f);
    case EvictOp(tz, oldest) => if tz in zones && OldestDetails(t.details, oldest) { EvictKeeps(zones[tz], t, oldest, f); }
  }

  /** After any run of ingests, prunes and evictions, every aligned question about a
      range retention has not reached is answered from the accepted observations
      alone, as if nothing had ever been split, merged, pruned or evicted. */
  lemma {:induction false} LedgerAnswersFromHistory(zones: map<string, Grid>, ops: seq<Op>, days: Grid, f: Filter)
    requires AllRegular(zones) && Regular(days) && Aligned(days, f)
    requires Pinned(zones, Run(zones, ops).tables, days)
    requires Retained(Run(zones, ops).tables, f)
    ensures SumRows(Run(zones, ops).tables.metrics, f) == Expected(Run(zones, ops).history, f)
  {
    if ops != [] {
      var before := ops[..|ops| - 1];
      var w := Run(zones, before);
      var op := ops[|ops| - 1];
      if op.IngestOp? {
        if Ingest(zones, w.tables, op.batch, op.storage).Ok? { IngestKeeps(zones, w, op.batch, op.storage, days, f); }
      } else {
        RetainKeeps(zones, w.tables, op, days, f);
      }
      LedgerAnswersFromHistory(zones, before, days, f);
    }
  }
}
