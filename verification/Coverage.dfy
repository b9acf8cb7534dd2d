/** Observed time is never counted twice: in every reachable ledger the coverage of a range
    of buckets is at most the length of the range, although interval ends carry fractions of
    a millisecond and every piece is truncated on its own. */
module Coverage {
  import opened Wrappers
  import opened Clock
  import opened Calendar
  import opened Allocation
  import opened Split
  import opened Ledger
  import opened History

  /** One source's coverage over the buckets of a resolution that start in [lo, hi). */
  datatype Span = Span(source: string, res: Resolution, lo: Time, hi: Time)

  predicate InSpan(q: Span, k: CoverageKey) {
    k.res == q.res && k.source == q.source && UnixMilli(q.lo) <= k.bucket < UnixMilli(q.hi)
  }

  function Counted(row: CoverageRow, q: Span): int { if InSpan(q, row.key) then row.millis else 0 }

  function SumCoverage(rows: seq<CoverageRow>, q: Span): int {
    if rows == [] then 0 else Counted(rows[0], q) + SumCoverage(rows[1..], q)
  }

  predicate NonNegative(rows: seq<CoverageRow>) {
    rows == [] || (0 <= rows[0].millis && NonNegative(rows[1..]))
  }

  ghost predicate SpanOn(g: Grid, q: Span) { IsBoundary(g, q.lo) && IsBoundary(g, q.hi) && q.lo <= q.hi }

  // ---------- what the table operations do to a sum ----------

  lemma {:induction false} ExtendCounts(rows: seq<CoverageRow>, add: CoverageRow, q: Span)
    ensures SumCoverage(Extend(rows, add), q) == SumCoverage(rows, q) + Counted(add, q)
    ensures NonNegative(rows) && 0 <= add.millis ==> NonNegative(Extend(rows, add))
  {
    if rows != [] && rows[0].key != add.key {
      ExtendCounts(rows[1..], add, q);
    }
  }

  lemma {:induction false} ExtendAllCounts(rows: seq<CoverageRow>, adds: seq<CoverageRow>, q: Span)
    ensures SumCoverage(ExtendAll(rows, adds), q) == SumCoverage(rows, q) + SumCoverage(adds, q)
    ensures NonNegative(rows) && NonNegative(adds) ==> NonNegative(ExtendAll(rows, adds))
    decreases |adds|
  {
    if adds != [] {
      ExtendCounts(rows, adds[0], q);
      ExtendAllCounts(Extend(rows, adds[0]), adds[1..], q);
    }
  }

  lemma {:induction false} KeepCounts(rows: seq<CoverageRow>, res: Resolution, from: int, q: Span)
    requires NonNegative(rows)
    ensures NonNegative(KeepCoverage(rows, res, from))
    ensures SumCoverage(KeepCoverage(rows, res, from), q) <= SumCoverage(rows, q)
  {
    if rows != [] {
      KeepCounts(rows[1..], res, from, q);
    }
  }

  /** The pieces of [at, end) add no more than the whole milliseconds between the ends
      of their common part with the span. */
  lemma {:induction false} PiecesCount(g: Grid, q: Span, f: Filter, at: Time, end: Time)
    requires Regular(g) && SpanOn(g, q) && at <= end
    requires f.lo == q.lo && f.hi == q.hi
    ensures var rows := CoverRows(q.res, q.source, Pieces(g, at, end));
            NonNegative(rows) && SumCoverage(rows, q) <= Share(UnixMilli, at, end, q.lo, q.hi)
    decreases end - at
  {
    if at < end {
      var n := Next(g, at, end);
      PiecesCount(g, q, f, n, end);
      BucketVisible(g, f, at);
      ShareStep(g, UnixMilli, at, end, f);
      MillisOfSpan(at, n);
    }
  }

  lemma {:induction false} PiecesElsewhere(res: Resolution, source: string, pieces: seq<Piece>, q: Span)
    requires res != q.res || source != q.source
    requires forall p :: p in pieces ==> p.start <= p.end
    ensures var rows := CoverRows(res, source, pieces); NonNegative(rows) && SumCoverage(rows, q) == 0
  {
    if pieces != [] {
      PiecesElsewhere(res, source, pieces[1..], q);
    }
  }

  lemma CoverHere(g: Grid, q: Span, start: Time, end: Time)
    requires Regular(g) && SpanOn(g, q) && start < end
    ensures var rows := CoverRows(q.res, q.source, Pieces(g, start, end));
            NonNegative(rows) && SumCoverage(rows, q) <= Share(UnixMilli, start, end, q.lo, q.hi)
  {
    PiecesCount(g, q, Filter((s, d) => true, q.res, q.lo, q.hi, Up), start, end);
  }

  lemma CoverElsewhere(g: Grid, res: Resolution, source: string, start: Time, end: Time, q: Span)
    requires Tiling(g) && start < end && (res != q.res || source != q.source)
    ensures var rows := CoverRows(res, source, Pieces(g, start, end)); NonNegative(rows) && SumCoverage(rows, q) == 0
  {
    PiecesTile(g, start, end);
    PiecesElsewhere(res, source, Pieces(g, start, end), q);
  }

  /** What covering [start, end) adds to a span. */
  lemma CoverCounts(days: Grid, res: Resolution, source: string, start: Time, end: Time, q: Span)
    requires Regular(days) && SpanOn(GridOf(days, q.res), q) && start < end
    requires Tiling(GridOf(days, res))
    ensures var rows := CoverRows(res, source, Pieces(GridOf(days, res), start, end));
            && NonNegative(rows)
            && SumCoverage(rows, q) <= (if res == q.res && source == q.source then Share(UnixMilli, start, end, q.lo, q.hi) else 0)
  {
    MinutesRegular();
    if res == q.res && source == q.source {
      CoverHere(GridOf(days, q.res), q, start, end);
    } else {
      CoverElsewhere(GridOf(days, res), res, source, start, end, q);
    }
  }

  // ---------- the invariant ----------

  function CoveredTo(t: Tables, source: string): int {
    if source in t.sources then t.sources[source].coverageEnd else 0
  }

  predicate EndsPastEpoch(t: Tables) { forall s :: s in t.sources ==> 0 <= t.sources[s].coverageEnd }

  /** A span holds no more than the part of it before the coverage watermark. */
  predicate Bounded(t: Tables, q: Span) {
    && NonNegative(t.coverage)
    && SumCoverage(t.coverage, q) <= Clamp(CoveredTo(t, q.source), UnixMilli(q.lo), UnixMilli(q.hi)) - UnixMilli(q.lo)
  }

  /** Covering [start, end) in milliseconds, on top of what is covered up to c <= start. */
  lemma ClampSteps(c: int, s: int, a: int, lo: int, hi: int)
    requires c <= s <= a && lo <= hi
    ensures Clamp(c, lo, hi) + Clamp(hi, s, a) - Clamp(lo, s, a) <= Clamp(a, lo, hi)
  {}

  lemma ClampStamps(t: Time, s: Time, a: Time)
    requires s <= a && t % 60_000_000_000 == 0
    ensures UnixMilli(Clamp(t, s, a)) == Clamp(UnixMilli(t), UnixMilli(s), UnixMilli(a))
  {
    MilliMonotone(s, a);
    if s <= t { MilliMonotone(s, t); } else { MilliMonotone(t, s); }
    if a <= t { MilliMonotone(a, t); } else { MilliMonotone(t, a); }
  }

  /** When a batch covers new time, that time starts at or after the watermark. */
  lemma CoverageMovesOn(coverageEnd: int, b: Batch)
    requires 0 <= coverageEnd && 0 <= b.at && b.coverageStart != ZERO_TIME
    requires b.at - CoverageFrom(coverageEnd, b) <= MAX_SPAN
    ensures coverageEnd <= UnixMilli(CoverageFrom(coverageEnd, b))
  {}

  lemma ShareFitsSpan(g: Grid, q: Span, coverageEnd: int, start: Time, end: Time)
    requires Regular(g) && SpanOn(g, q) && start <= end && coverageEnd <= UnixMilli(start)
    ensures var lo, hi := UnixMilli(q.lo), UnixMilli(q.hi);
            Clamp(coverageEnd, lo, hi) + Share(UnixMilli, start, end, q.lo, q.hi) <= Clamp(UnixMilli(end), lo, hi)
  {
    MilliMonotone(start, end);
    BoundaryOnMinute(g, q.lo);
    BoundaryOnMinute(g, q.hi);
    StampsOrdered(g, q.lo, q.hi);
    ClampStamps(q.lo, start, end);
    ClampStamps(q.hi, start, end);
    ClampSteps(coverageEnd, UnixMilli(start), UnixMilli(end), UnixMilli(q.lo), UnixMilli(q.hi));
  }

  lemma CoverAdds(days: Grid, t: Tables, source: string, start: Time, end: Time, q: Span)
    requires Regular(days) && SpanOn(GridOf(days, q.res), q) && start < end && NonNegative(t.coverage)
    requires Tiling(Minutes())
    ensures var minutes := ExtendAll(t.coverage, CoverRows(Minute, source, Pieces(Minutes(), start, end)));
            var both := ExtendAll(minutes, CoverRows(Day, source, Pieces(days, start, end)));
            && NonNegative(both)
            && SumCoverage(both, q) <=
               SumCoverage(t.coverage, q) + (if source == q.source then Share(UnixMilli, start, end, q.lo, q.hi) else 0)
  {
    var minutes := CoverRows(Minute, source, Pieces(Minutes(), start, end));
    var both := CoverRows(Day, source, Pieces(days, start, end));
    CoverCounts(days, Minute, source, start, end, q);
    CoverCounts(days, Day, source, start, end, q);
    ExtendAllCounts(t.coverage, minutes, q);
    ExtendAllCounts(ExtendAll(t.coverage, minutes), both, q);
  }

  /** What covering does to the table and to the watermark. */
  lemma CoveringAdds(days: Grid, t: Tables, source: string, start: Time, end: Time, q: Span)
    requires Regular(days) && SpanOn(GridOf(days, q.res), q) && source in t.sources && NonNegative(t.coverage) && start < end
    ensures var t' := Covering(days, t, source, start, end);
            && NonNegative(t'.coverage) && CoveredTo(t', source) == Millis(end)
            && (source != q.source ==> CoveredTo(t', q.source) == CoveredTo(t, q.source))
            && SumCoverage(t'.coverage, q) <=
               SumCoverage(t.coverage, q) + (if source == q.source then Share(UnixMilli, start, end, q.lo, q.hi) else 0)
  {
    MinutesRegular();
    CoverAdds(days, t, source, start, end, q);
  }

  lemma CoveringBounded(days: Grid, t: Tables, source: string, start: Time, end: Time, q: Span)
    requires Regular(days) && SpanOn(GridOf(days, q.res), q) && source in t.sources && Bounded(t, q)
    requires start < end && 0 <= end && t.sources[source].coverageEnd <= UnixMilli(start)
    ensures Bounded(Covering(days, t, source, start, end), q)
    ensures t.sources[source].coverageEnd <= Millis(end)
  {
    MinutesRegular();
    MilliMonotone(start, end);
    CoveringAdds(days, t, source, start, end, q);
    if source == q.source {
      ShareFitsSpan(GridOf(days, q.res), q, t.sources[source].coverageEnd, start, end);
    }
  }

  /** One batch keeps the bound and never moves the watermark back. */
  lemma CoverBounded(days: Grid, t: Tables, b: Batch, q: Span)
    requires Regular(days) && SpanOn(GridOf(days, q.res), q)
    requires b.sourceId in t.sources && Cover(days, t, b).Ok? && 0 <= b.at && EndsPastEpoch(t) && Bounded(t, q)
    ensures Bounded(Cover(days, t, b).value, q)
    ensures CoveredTo(t, b.sourceId) <= CoveredTo(Cover(days, t, b).value, b.sourceId)
  {
    var end := t.sources[b.sourceId].coverageEnd;
    var start := CoverageFrom(end, b);
    if b.coverageStart != ZERO_TIME && start < b.at {
      CoverageMovesOn(end, b);
      CoveringBounded(days, t, b.sourceId, start, b.at, q);
    }
  }

  /** No source's watermark is moved back or below the epoch. */
  predicate EndsRise(t: Tables, t': Tables) {
    EndsPastEpoch(t') && forall s :: s in t.sources ==> s in t'.sources && t.sources[s].coverageEnd <= t'.sources[s].coverageEnd
  }

  lemma CoverEnds(days: Grid, t: Tables, b: Batch)
    requires Regular(days) && b.sourceId in t.sources && Cover(days, t, b).Ok? && 0 <= b.at && EndsPastEpoch(t)
    ensures EndsRise(t, Cover(days, t, b).value)
  {
    var end := t.sources[b.sourceId].coverageEnd;
    var start := CoverageFrom(end, b);
    if b.coverageStart != ZERO_TIME && start < b.at {
      CoverageMovesOn(end, b);
      MilliMonotone(start, b.at);
    }
  }

  /** The same coverage and, source by source, the same watermark. */
  ghost predicate SameCoverage(t: Tables, t': Tables) {
    t'.coverage == t.coverage && forall s :: CoveredTo(t', s) == CoveredTo(t, s) && (s in t.sources ==> s in t'.sources)
  }

  lemma ObserveCovers(days: Grid, t: Tables, b: Batch)
    requires Regular(days) && Observe(days, t, b).Ok?
    ensures SameCoverage(t, Observe(days, t, b).value.tables)
  {
    ObserveFrame(days, t, b);
  }

  /** Of the end of a transaction only the covering step touches coverage. */
  lemma FinishCovers(days: Grid, tx: Tx, b: Batch, drops: int)
    requires Regular(days) && b.sourceId in tx.tables.sources && Finish(days, tx, b, drops).Ok?
    ensures Cover(days, tx.tables, b).Ok?
    ensures SameCoverage(Cover(days, tx.tables, b).value, Finish(days, tx, b, drops).value.tables)
  {}

  lemma SameEnds(t: Tables, u: Tables, v: Tables, w: Tables)
    requires SameCoverage(t, u) && EndsRise(u, v) && SameCoverage(v, w)
    ensures EndsRise(t, w)
  {
    forall s | s in w.sources ensures 0 <= w.sources[s].coverageEnd {
      assert CoveredTo(w, s) == CoveredTo(v, s);
    }
    forall s | s in t.sources ensures s in w.sources && t.sources[s].coverageEnd <= w.sources[s].coverageEnd {
      assert CoveredTo(u, s) == CoveredTo(t, s) && CoveredTo(w, s) == CoveredTo(v, s);
    }
  }

  lemma SamePastEpoch(t: Tables, t': Tables)
    requires SameCoverage(t, t') && EndsPastEpoch(t)
    ensures EndsPastEpoch(t')
  {
    forall s | s in t'.sources ensures 0 <= t'.sources[s].coverageEnd {
      assert CoveredTo(t', s) == CoveredTo(t, s);
    }
  }

  lemma TransactEnds(days: Grid, t: Tables, b: Batch)
    requires Regular(days) && Transact(days, t, b).Ok? && 0 <= b.at && EndsPastEpoch(t)
    ensures EndsRise(t, Transact(days, t, b).value.tables)
  {
    var tx := Observe(days, t, b).value;
    ObserveCovers(days, t, b);
    SamePastEpoch(t, tx.tables);
    CoverThrough(days, tx, b, DropsOf(t, b.sourceId));
    SameEnds(t, tx.tables, Cover(days, tx.tables, b).value, Transact(days, t, b).value.tables);
  }

  lemma CoverThrough(days: Grid, tx: Tx, b: Batch, drops: int)
    requires Regular(days) && b.sourceId in tx.tables.sources && Finish(days, tx, b, drops).Ok? && 0 <= b.at && EndsPastEpoch(tx.tables)
    ensures Cover(days, tx.tables, b).Ok? && EndsRise(tx.tables, Cover(days, tx.tables, b).value)
    ensures SameCoverage(Cover(days, tx.tables, b).value, Finish(days, tx, b, drops).value.tables)
  {
    FinishCovers(days, tx, b, drops);
    CoverEnds(days, tx.tables, b);
  }

  lemma BoundThrough(days: Grid, tx: Tx, b: Batch, drops: int, q: Span)
    requires Regular(days) && SpanOn(GridOf(days, q.res), q) && b.sourceId in tx.tables.sources
    requires Finish(days, tx, b, drops).Ok? && 0 <= b.at && EndsPastEpoch(tx.tables) && Bounded(tx.tables, q)
    ensures Bounded(Finish(days, tx, b, drops).value.tables, q)
  {
    FinishCovers(days, tx, b, drops);
    CoverBounded(days, tx.tables, b, q);
  }

  lemma TransactBounded(days: Grid, t: Tables, b: Batch, q: Span)
    requires Regular(days) && SpanOn(GridOf(days, q.res), q)
    requires Transact(days, t, b).Ok? && 0 <= b.at && EndsPastEpoch(t) && Bounded(t, q)
    ensures Bounded(Transact(days, t, b).value.tables, q)
  {
    var tx := Observe(days, t, b).value;
    ObserveCovers(days, t, b);
    SamePastEpoch(t, tx.tables);
    BoundThrough(days, tx, b, DropsOf(t, b.sourceId), q);
  }

  predicate ClockPastEpoch(op: Op) { op.IngestOp? ==> 0 <= op.batch.at }

  lemma PruneCounts(t: Tables, h: Horizon, q: Span)
    requires NonNegative(t.coverage)
    ensures NonNegative(Prune(t, h).coverage) && SumCoverage(Prune(t, h).coverage, q) <= SumCoverage(t.coverage, q)
  {
    var minute := UnixMilli(TruncateMinute(h.minute));
    KeepCounts(t.coverage, Minute, minute, q);
    KeepCounts(KeepCoverage(t.coverage, Minute, minute), Day, UnixMilli(h.day), q);
  }

  lemma EvictCounts(days: Grid, t: Tables, oldest: Option<int>, q: Span)
    requires NonNegative(t.coverage)
    ensures NonNegative(Evict(days, t, oldest).coverage) && SumCoverage(Evict(days, t, oldest).coverage, q) <= SumCoverage(t.coverage, q)
  {
    var minute, day := OldestBucket(t.metrics, Minute), OldestBucket(t.metrics, Day);
    if minute.Some? { KeepCounts(t.coverage, Minute, minute.value + 1, q); }
    if day.Some? { KeepCounts(t.coverage, Day, day.value + 1, q); }
  }

  lemma IngestBounded(zones: map<string, Grid>, w: World, b: Batch, storage: Storage, days: Grid, q: Span)
    requires AllRegular(zones) && Regular(days) && SpanOn(GridOf(days, q.res), q) && Ingest(zones, w.tables, b, storage).Ok?
    requires 0 <= b.at && Pinned(zones, Apply(zones, w, IngestOp(b, storage)).tables, days) && Bounded(w.tables, q) && EndsPastEpoch(w.tables)
    ensures Bounded(Apply(zones, w, IngestOp(b, storage)).tables, q)
    ensures EndsRise(w.tables, Apply(zones, w, IngestOp(b, storage)).tables)
  {
    TransactFrame(zones[ZoneName(b)], w.tables, b);
    TransactBounded(days, w.tables, b, q);
    TransactEnds(days, w.tables, b);
  }

  lemma RetainCounts(zones: map<string, Grid>, t: Tables, op: Op, q: Span)
    requires AllRegular(zones) && NonNegative(t.coverage)
    ensures var t' := Retain(zones, t, op);
            NonNegative(t'.coverage) && SumCoverage(t'.coverage, q) <= SumCoverage(t.coverage, q) && t'.sources == t.sources
  {
    match op
    case IngestOp(_, _) =>
    case PruneOp(h) => PruneCounts(t, h, q);
    case EvictOp(tz, oldest) => if tz in zones { EvictCounts(zones[tz], t, oldest, q); }
  }

  lemma StepBounded(zones: map<string, Grid>, w: World, op: Op, days: Grid, q: Span)
    requires AllRegular(zones) && Regular(days) && SpanOn(GridOf(days, q.res), q)
    requires ClockPastEpoch(op) && Pinned(zones, Apply(zones, w, op).tables, days) && Bounded(w.tables, q) && EndsPastEpoch(w.tables)
    ensures Bounded(Apply(zones, w, op).tables, q)
    ensures EndsRise(w.tables, Apply(zones, w, op).tables)
  {
    if op.IngestOp? {
      if Ingest(zones, w.tables, op.batch, op.storage).Ok? { IngestBounded(zones, w, op.batch, op.storage, days, q); }
    } else {
      RetainCounts(zones, w.tables, op, q);
    }
  }

  lemma CoverNonNegative(days: Grid, t: Tables, b: Batch)
    requires Regular(days) && b.sourceId in t.sources && Cover(days, t, b).Ok? && NonNegative(t.coverage)
    ensures NonNegative(Cover(days, t, b).value.coverage)
  {
    var start := CoverageFrom(t.sources[b.sourceId].coverageEnd, b);
    MinutesRegular();
    EndIsBoundary(days, 0);
    if b.coverageStart != ZERO_TIME && start < b.at {
      CoverAdds(days, t, b.sourceId, start, b.at, Span("", Day, days.floor(0), days.floor(0)));
    }
  }

  lemma TransactNonNegative(days: Grid, t: Tables, b: Batch)
    requires Regular(days) && Transact(days, t, b).Ok? && NonNegative(t.coverage)
    ensures NonNegative(Transact(days, t, b).value.tables.coverage)
  {
    var tx := Observe(days, t, b).value;
    ObserveCovers(days, t, b);
    FinishCovers(days, tx, b, DropsOf(t, b.sourceId));
    CoverNonNegative(days, tx.tables, b);
  }

  lemma StepNonNegative(zones: map<string, Grid>, w: World, op: Op)
    requires AllRegular(zones) && NonNegative(w.tables.coverage)
    ensures NonNegative(Apply(zones, w, op).tables.coverage)
  {
    if op.IngestOp? {
      if Ingest(zones, w.tables, op.batch, op.storage).Ok? { TransactNonNegative(zones[ZoneName(op.batch)], w.tables, op.batch); }
    } else {
      RetainCounts(zones, w.tables, op, Span("", Day, 0, 0));
    }
  }

  lemma {:induction false} RunBounded(zones: map<string, Grid>, ops: seq<Op>, days: Grid, q: Span)
    requires AllRegular(zones) && Regular(days) && SpanOn(GridOf(days, q.res), q)
    requires Pinned(zones, Run(zones, ops).tables, days)
    requires forall i :: 0 <= i < |ops| ==> ClockPastEpoch(ops[i])
    ensures Bounded(Run(zones, ops).tables, q) && EndsPastEpoch(Run(zones, ops).tables)
  {
    if ops == [] {
      MilliMonotone(q.lo, q.hi);
    } else {
      var before := ops[..|ops| - 1];
      var op := ops[|ops| - 1];
      var w := Run(zones, before);
      if op.IngestOp? && Ingest(zones, w.tables, op.batch, op.storage).Ok? {
        TransactFrame(zones[ZoneName(op.batch)], w.tables, op.batch);
      }
      RunBounded(zones, before, days, q);
      StepBounded(zones, w, op, days, q);
    }
  }

  /** After any run on clocks past the epoch, the coverage of a range of whole buckets is
      between nothing and the length of the range, and lies before the watermark. */
  lemma CoverageNeverExceedsTime(zones: map<string, Grid>, ops: seq<Op>, days: Grid, q: Span)
    requires AllRegular(zones) && Regular(days) && SpanOn(GridOf(days, q.res), q)
    requires Pinned(zones, Run(zones, ops).tables, days)
    requires forall i :: 0 <= i < |ops| ==> ClockPastEpoch(ops[i])
    ensures Bounded(Run(zones, ops).tables, q) && EndsPastEpoch(Run(zones, ops).tables)
    ensures 0 <= SumCoverage(Run(zones, ops).tables.coverage, q) <= UnixMilli(q.hi) - UnixMilli(q.lo)
  {
    MilliMonotone(q.lo, q.hi);
    RunBounded(zones, ops, days, q);
    SumNonNegative(Run(zones, ops).tables.coverage, q);
  }

  lemma {:induction false} SumNonNegative(rows: seq<CoverageRow>, q: Span)
    requires NonNegative(rows)
    ensures 0 <= SumCoverage(rows, q)
  {
    if rows != [] {
      SumNonNegative(rows[1..], q);
    }
  }

  /** A clock in the first days of year 1 is not past the epoch: there a batch can move the
      watermark of a source that has none yet back below zero. */
  lemma YearOneMovesCoverageBack(days: Grid, t: Tables, b: Batch)
    requires Regular(days) && b.sourceId in t.sources && t.sources[b.sourceId].coverageEnd == 0
    requires b.coverageStart == ZERO_TIME + 1 && b.at == ZERO_TIME + 60_000_000_000
    ensures Cover(days, t, b).Ok?
    ensures CoveredTo(Cover(days, t, b).value, b.sourceId) < CoveredTo(t, b.sourceId)
  {
    assert Millis(b.coverageStart) < 0;
  }

  /** Where newly covered time ends, in milliseconds, against the watermark so far. */
  lemma NewEndFallsIff(end: int, b: Batch)
    requires b.coverageStart != ZERO_TIME && CoverageFrom(end, b) < b.at && b.at != ZERO_TIME
    ensures Millis(b.at) < end <==> end == 0 && UnixMilli(b.at) < 0
  {
    MilliMonotone(CoverageFrom(end, b), b.at);
    if end != 0 && Millis(b.coverageStart) < end {
      assert UnixMilli(CoverageFrom(end, b)) == end;
    }
  }

  /** That is the only way: the watermark falls exactly when it stood at zero and the batch
      covers new time up to an instant before the epoch. */
  lemma CoverageFallsIff(days: Grid, t: Tables, b: Batch)
    requires Regular(days) && b.sourceId in t.sources && Cover(days, t, b).Ok? && b.at != ZERO_TIME
    ensures CoveredTo(Cover(days, t, b).value, b.sourceId) < CoveredTo(t, b.sourceId) <==>
            && b.coverageStart != ZERO_TIME && CoveredTo(t, b.sourceId) == 0
            && CoverageFrom(0, b) < b.at && UnixMilli(b.at) < 0
  {
    var end := CoveredTo(t, b.sourceId);
    if b.coverageStart != ZERO_TIME && CoverageFrom(end, b) < b.at {
      NewEndFallsIff(end, b);
    }
  }

  // ---------- what a commit adds ----------

  /** The part of [at, end) that lies in [lo, hi). */
  function Overlap(at: Time, end: Time, lo: Time, hi: Time): int {
    var from, to := if at < lo then lo else at, if end < hi then end else hi;
    if from < to then to - from else 0
  }

  /** One bucket of a resolution. */
  ghost predicate IsBucket(g: Grid, q: Span) { IsBoundary(g, q.lo) && q.hi == g.after(q.lo) }

  lemma SpanIsBucket(g: Grid, q: Span, t: Time)
    requires Regular(g) && IsBucket(g, q)
    ensures UnixMilli(q.lo) <= UnixMilli(g.floor(t)) < UnixMilli(q.hi) <==> g.floor(t) == q.lo
    ensures g.floor(t) == q.lo <==> q.lo <= t < q.hi
  {
    assert g.floor(q.lo) == q.lo;
    EndIsBoundary(g, q.lo);
    BucketVisible(g, Filter((s, d) => true, q.res, q.lo, q.hi, Up), t);
  }

  /** An interval counts in each bucket with the whole milliseconds of its part there. */
  lemma {:induction false} PiecesInBucket(g: Grid, q: Span, at: Time, end: Time)
    requires Regular(g) && IsBucket(g, q)
    ensures SumCoverage(CoverRows(q.res, q.source, Pieces(g, at, end)), q) == Overlap(at, end, q.lo, q.hi) / 1_000_000
    decreases end - at
  {
    if at < end {
      var n := Next(g, at, end);
      PiecesInBucket(g, q, n, end);
      SpanIsBucket(g, q, at);
      assert g.floor(at) <= at < g.after(g.floor(at));
      if g.floor(at) != q.lo && at < q.lo { BoundarySeparates(g, q.lo, at); }
    }
  }

  lemma CoverInBucket(days: Grid, res: Resolution, source: string, start: Time, end: Time, q: Span)
    requires Regular(days) && Tiling(GridOf(days, res)) && Regular(GridOf(days, q.res)) && IsBucket(GridOf(days, q.res), q) && start < end
    ensures SumCoverage(CoverRows(res, source, Pieces(GridOf(days, res), start, end)), q) ==
            if res == q.res && source == q.source then Overlap(start, end, q.lo, q.hi) / 1_000_000 else 0
  {
    if res == q.res && source == q.source {
      PiecesInBucket(GridOf(days, q.res), q, start, end);
    } else {
      CoverElsewhere(GridOf(days, res), res, source, start, end, q);
    }
  }

  lemma CoveringInBucket(days: Grid, t: Tables, source: string, start: Time, end: Time, q: Span)
    requires Regular(days) && source in t.sources && IsBucket(GridOf(days, q.res), q) && start < end
    ensures SumCoverage(Covering(days, t, source, start, end).coverage, q) ==
            SumCoverage(t.coverage, q) + if source == q.source then Overlap(start, end, q.lo, q.hi) / 1_000_000 else 0
  {
    MinutesRegular();
    var minutes := CoverRows(Minute, source, Pieces(Minutes(), start, end));
    var both := CoverRows(Day, source, Pieces(days, start, end));
    CoverInBucket(days, Minute, source, start, end, q);
    CoverInBucket(days, Day, source, start, end, q);
    ExtendAllCounts(t.coverage, minutes, q);
    ExtendAllCounts(ExtendAll(t.coverage, minutes), both, q);
  }

  lemma NewFrom(coverageEnd: int, b: Batch)
    requires 0 <= coverageEnd && 0 <= b.at && b.coverageStart != ZERO_TIME && b.at - CoverageFrom(coverageEnd, b) <= MAX_SPAN
    ensures CoverageFrom(coverageEnd, b) == Max(b.coverageStart, coverageEnd * 1_000_000)
  {}

  lemma CoverAddsToBucket(days: Grid, t: Tables, b: Batch, q: Span)
    requires Regular(days) && b.sourceId in t.sources && Cover(days, t, b).Ok? && 0 <= b.at && EndsPastEpoch(t) && IsBucket(GridOf(days, q.res), q)
    ensures SumCoverage(Cover(days, t, b).value.coverage, q) == SumCoverage(t.coverage, q) +
              if b.sourceId == q.source && b.coverageStart != ZERO_TIME
              then Overlap(Max(b.coverageStart, CoveredTo(t, b.sourceId) * 1_000_000), b.at, q.lo, q.hi) / 1_000_000 else 0
    ensures CoveredTo(Cover(days, t, b).value, b.sourceId) ==
            if b.coverageStart != ZERO_TIME && Max(b.coverageStart, CoveredTo(t, b.sourceId) * 1_000_000) < b.at then UnixMilli(b.at) else CoveredTo(t, b.sourceId)
  {
    if b.coverageStart != ZERO_TIME {
      var end := t.sources[b.sourceId].coverageEnd;
      NewFrom(end, b);
      if CoverageFrom(end, b) < b.at { CoveringInBucket(days, t, b.sourceId, CoverageFrom(end, b), b.at, q); }
    }
  }

  /** A commit adds to each bucket of its source, minute and day, exactly the whole milliseconds
      of what is newly covered of it: from the start it claims, or from what was covered before
      if that is later, to its own instant. To other sources it adds nothing. */
  lemma CommitCovers(days: Grid, t: Tables, b: Batch, q: Span)
    requires Regular(days) && Transact(days, t, b).Ok? && 0 <= b.at && EndsPastEpoch(t) && IsBucket(GridOf(days, q.res), q)
    ensures SumCoverage(Transact(days, t, b).value.tables.coverage, q) == SumCoverage(t.coverage, q) +
              if b.sourceId == q.source && b.coverageStart != ZERO_TIME
              then Overlap(Max(b.coverageStart, CoveredTo(t, b.sourceId) * 1_000_000), b.at, q.lo, q.hi) / 1_000_000 else 0
    ensures CoveredTo(Transact(days, t, b).value.tables, b.sourceId) ==
            if b.coverageStart != ZERO_TIME && Max(b.coverageStart, CoveredTo(t, b.sourceId) * 1_000_000) < b.at then UnixMilli(b.at) else CoveredTo(t, b.sourceId)
  {
    var tx := Observe(days, t, b).value;
    ObserveCovers(days, t, b);
    SamePastEpoch(t, tx.tables);
    FinishCovers(days, tx, b, DropsOf(t, b.sourceId));
    CoverAddsToBucket(days, tx.tables, b, q);
    assert CoveredTo(tx.tables, b.sourceId) == CoveredTo(t, b.sourceId);
  }
}
