/** Committing a batch again changes nothing. */
module Replay {
  import opened Wrappers
  import opened Clock
  import opened Calendar
  import opened Split
  import opened Ledger
  import opened History
  import opened Coverage

  // What keeps a replay from counting twice is either the stored detail of an observation or
  // the watermark below which details were removed. One of the two always remains.

  function EventKey(source: string, e: Event): DetailKey { DetailKey(source, e.id, EventDetail) }

  function DeltaKey(source: string, d: Delta): DetailKey { DetailKey(source, d.id, DeltaDetail) }

  // ---------- what is ignored now, and what stays ignored ----------

  /** The guards of the ingest loop: the event would be skipped or found stored. */
  predicate EventIgnored(t: Tables, source: string, e: Event) {
    UnixMilli(e.at) < Cut(t.detailCutoff) || EventKey(source, e) in t.details
  }

  predicate DeltaIgnored(t: Tables, source: string, d: Delta) {
    if d.granularity == "day" then UnixMilli(d.start) < Cut(t.dayCutoff) || ImportKey(source, d.id) in t.imports
    else UnixMilli(d.end) <= Cut(t.detailCutoff) || DeltaKey(source, d) in t.details
  }

  /** Ignored now, and if because it is stored, then under a stamp no earlier than its own. */
  predicate EventSettled(t: Tables, source: string, e: Event) {
    var k := EventKey(source, e);
    UnixMilli(e.at) < Cut(t.detailCutoff) || (k in t.details && UnixMilli(e.at) <= t.details[k])
  }

  predicate DeltaSettled(t: Tables, source: string, d: Delta) {
    var k := DeltaKey(source, d);
    var i := ImportKey(source, d.id);
    if d.granularity == "day" then
      UnixMilli(d.start) < Cut(t.dayCutoff) || (i in t.imports && UnixMilli(d.start) <= t.imports[i])
    else
      UnixMilli(d.end) <= Cut(t.detailCutoff) || (k in t.details && UnixMilli(d.end) <= t.details[k] + 1)
  }

  predicate CoverageSettled(t: Tables, b: Batch) {
    b.coverageStart == ZERO_TIME || b.at <= b.coverageStart || (b.sourceId in t.sources && Millis(b.at) <= t.sources[b.sourceId].coverageEnd)
  }

  predicate Settled(t: Tables, b: Batch) {
    && (forall e :: e in b.events ==> EventSettled(t, b.sourceId, e))
    && (forall d :: d in b.deltas ==> DeltaSettled(t, b.sourceId, d))
    && CoverageSettled(t, b)
  }

  /** Watermarks that only rise, and stored stamps that are not lost without one. */
  ghost predicate Remembers(t: Tables, t': Tables) {
    && Cut(t.detailCutoff) <= Cut(t'.detailCutoff) && Cut(t.dayCutoff) <= Cut(t'.dayCutoff)
    && (forall k :: k in t.details ==> (k in t'.details && t'.details[k] == t.details[k]) || t.details[k] < Cut(t'.detailCutoff))
    && (forall k :: k in t.imports ==> (k in t'.imports && t'.imports[k] == t.imports[k]) || t.imports[k] < Cut(t'.dayCutoff))
    && (forall s :: s in t.sources ==> s in t'.sources && t.sources[s].coverageEnd <= t'.sources[s].coverageEnd)
  }

  lemma SettledStays(t: Tables, t': Tables, b: Batch)
    requires Remembers(t, t') && Settled(t, b)
    ensures Settled(t', b)
  {}

  // ---------- every sane step remembers ----------

  /** Retention counted back from a clock past the epoch, and no day row at or before the
      epoch to evict: FromMillis reads bucket 0 as "no time". */
  predicate Modern(t: Tables, op: Op) {
    match op
    case IngestOp(b, _) => 0 <= b.at
    case PruneOp(h) => 0 <= h.detail && 0 <= h.day
    case EvictOp(_, oldest) =>
      var day := OldestBucket(t.metrics, Day);
      (oldest.Some? ==> 0 <= oldest.value) && (day.Some? ==> 0 < day.value)
  }

  lemma PruneRemembers(t: Tables, h: Horizon)
    requires 0 <= h.detail && 0 <= h.day
    ensures Remembers(t, Prune(t, h))
  {}

  lemma EvictRemembers(days: Grid, t: Tables, oldest: Option<int>)
    requires Regular(days) && Modern(t, EvictOp("", oldest))
    ensures Remembers(t, Evict(days, t, oldest))
  {
    var day := OldestBucket(t.metrics, Day);
    if day.Some? { NextDayLater(days, day.value); }
  }

  /** Observations only add details and imports. */
  predicate Grows(t: Tables, t': Tables) {
    && (forall k :: k in t.details ==> k in t'.details && t'.details[k] == t.details[k])
    && (forall k :: k in t.imports ==> k in t'.imports && t'.imports[k] == t.imports[k])
  }

  lemma {:induction false} EventsGrow(days: Grid, tx: Tx, source: string, events: seq<Event>)
    requires Regular(days) && AddEvents(days, tx, source, events).Ok?
    ensures Grows(tx.tables, AddEvents(days, tx, source, events).value.tables)
    ensures forall e :: e in events ==> EventIgnored(AddEvents(days, tx, source, events).value.tables, source, e)
    decreases |events|
  {
    if events != [] {
      var next := AddEvent(days, tx, source, events[0]).value;
      EventsGrow(days, next, source, events[1..]);
      EventsFrame(days, next, source, events[1..]);
      assert EventIgnored(next.tables, source, events[0]);
      assert forall e :: e in events ==> e == events[0] || e in events[1..];
    }
  }

  lemma DeltaGrows(days: Grid, tx: Tx, source: string, d: Delta)
    requires Regular(days) && source in tx.tables.sources && AddDelta(days, tx, source, d).Ok?
    ensures Grows(tx.tables, AddDelta(days, tx, source, d).value.tables)
    ensures DeltaIgnored(AddDelta(days, tx, source, d).value.tables, source, d)
  {}

  lemma GrowsChain(t: Tables, u: Tables, v: Tables)
    requires Grows(t, u) && Grows(u, v)
    ensures Grows(t, v)
  {}

  lemma IgnoredStays(t: Tables, t': Tables, source: string, d: Delta)
    requires Grows(t, t') && SameMarks(t, t') && DeltaIgnored(t, source, d)
    ensures DeltaIgnored(t', source, d)
  {}

  lemma {:induction false} DeltasGrow(days: Grid, tx: Tx, source: string, deltas: seq<Delta>)
    requires Regular(days) && source in tx.tables.sources && AddDeltas(days, tx, source, deltas).Ok?
    ensures Grows(tx.tables, AddDeltas(days, tx, source, deltas).value.tables)
    ensures forall d :: d in deltas ==> DeltaIgnored(AddDeltas(days, tx, source, deltas).value.tables, source, d)
    decreases |deltas|
  {
    if deltas != [] {
      var next := AddDelta(days, tx, source, deltas[0]).value;
      var last := AddDeltas(days, tx, source, deltas).value.tables;
      DeltaGrows(days, tx, source, deltas[0]);
      DeltasGrow(days, next, source, deltas[1..]);
      DeltasFrame(days, next, source, deltas[1..]);
      GrowsChain(tx.tables, next.tables, last);
      IgnoredStays(next.tables, last, source, deltas[0]);
      assert forall d :: d in deltas ==> d == deltas[0] || d in deltas[1..];
    }
  }

  lemma FinishGrows(days: Grid, tx: Tx, b: Batch, drops: int)
    requires Regular(days) && b.sourceId in tx.tables.sources && Finish(days, tx, b, drops).Ok? && 0 <= b.at
    ensures CoverageSettled(Finish(days, tx, b, drops).value.tables, b)
  {
    var row := tx.tables.sources[b.sourceId];
    var start := CoverageFrom(row.coverageEnd, b);
    if b.coverageStart != ZERO_TIME && start >= b.at && start != b.coverageStart {
      MilliMonotone(b.at, start);
    }
  }

  lemma ObserveGrows(days: Grid, t: Tables, b: Batch)
    requires Regular(days) && Observe(days, t, b).Ok?
    ensures var t' := Observe(days, t, b).value.tables;
            && Grows(t, t')
            && (forall e :: e in b.events ==> EventIgnored(t', b.sourceId, e))
            && (forall d :: d in b.deltas ==> DeltaIgnored(t', b.sourceId, d))
  {
    var start := Tx(Bind(t, b).value, 0, []);
    var mid := AddEvents(days, start, b.sourceId, b.events).value;
    EventsGrow(days, start, b.sourceId, b.events);
    DeltasGrow(days, mid, b.sourceId, b.deltas);
    DeltasFrame(days, mid, b.sourceId, b.deltas);
  }

  /** After a committed batch each of its observations is ignored, its coverage is
      settled, and nothing known before is forgotten. */
  lemma CommitRemembers(days: Grid, t: Tables, b: Batch)
    requires Regular(days) && Transact(days, t, b).Ok? && 0 <= b.at && EndsPastEpoch(t)
    ensures var t' := Transact(days, t, b).value.tables;
            && Remembers(t, t')
            && (forall e :: e in b.events ==> EventIgnored(t', b.sourceId, e))
            && (forall d :: d in b.deltas ==> DeltaIgnored(t', b.sourceId, d))
            && CoverageSettled(t', b)
  {
    var tx := Observe(days, t, b).value;
    ObserveGrows(days, t, b);
    ObserveFrame(days, t, b);
    TransactEnds(days, t, b);
    FinishFrame(days, tx, b, DropsOf(t, b.sourceId));
    FinishGrows(days, tx, b, DropsOf(t, b.sourceId));
  }

  lemma StepRemembers(zones: map<string, Grid>, w: World, op: Op)
    requires AllRegular(zones) && Modern(w.tables, op) && EndsPastEpoch(w.tables)
    ensures Remembers(w.tables, Apply(zones, w, op).tables) && EndsPastEpoch(Apply(zones, w, op).tables)
  {
    match op
    case IngestOp(b, storage) =>
      if Ingest(zones, w.tables, b, storage).Ok? {
        CommitRemembers(zones[ZoneName(b)], w.tables, b);
        TransactEnds(zones[ZoneName(b)], w.tables, b);
      }
    case PruneOp(h) => PruneRemembers(w.tables, h);
    case EvictOp(tz, oldest) =>
      if tz in zones { EvictRemembers(zones[tz], w.tables, oldest); }
  }

  // ---------- a replay changes nothing ----------

  lemma {:induction false} IgnoredEventsNeutral(days: Grid, tx: Tx, source: string, events: seq<Event>)
    requires Regular(days) && AddEvents(days, tx, source, events).Ok?
    requires forall e :: e in events ==> EventIgnored(tx.tables, source, e)
    ensures var tx' := AddEvents(days, tx, source, events).value; tx'.tables == tx.tables && tx'.accepted == tx.accepted
    decreases |events|
  {
    if events != [] {
      assert EventIgnored(tx.tables, source, events[0]);
      IgnoredEventsNeutral(days, AddEvent(days, tx, source, events[0]).value, source, events[1..]);
    }
  }

  lemma {:induction false} IgnoredDeltasNeutral(days: Grid, tx: Tx, source: string, deltas: seq<Delta>)
    requires Regular(days) && source in tx.tables.sources && AddDeltas(days, tx, source, deltas).Ok?
    requires forall d :: d in deltas ==> DeltaIgnored(tx.tables, source, d)
    ensures var tx' := AddDeltas(days, tx, source, deltas).value; tx'.tables == tx.tables && tx'.accepted == tx.accepted
    decreases |deltas|
  {
    if deltas != [] {
      assert DeltaIgnored(tx.tables, source, deltas[0]);
      IgnoredDeltasNeutral(days, AddDelta(days, tx, source, deltas[0]).value, source, deltas[1..]);
    }
  }

  lemma SettledIsIgnored(t: Tables, b: Batch)
    requires Settled(t, b)
    ensures forall e :: e in b.events ==> EventIgnored(t, b.sourceId, e)
    ensures forall d :: d in b.deltas ==> DeltaIgnored(t, b.sourceId, d)
  {}

  /** Settled coverage leaves at most a fraction of a millisecond, which counts nothing. */
  lemma SettledCoverage(days: Grid, t: Tables, b: Batch, q: Span)
    requires Regular(days) && SpanOn(GridOf(days, q.res), q) && b.sourceId in t.sources
    requires Cover(days, t, b).Ok? && 0 <= b.at && EndsPastEpoch(t) && NonNegative(t.coverage) && CoverageSettled(t, b)
    ensures SumCoverage(Cover(days, t, b).value.coverage, q) == SumCoverage(t.coverage, q)
  {
    var end := t.sources[b.sourceId].coverageEnd;
    var start := CoverageFrom(end, b);
    if b.coverageStart != ZERO_TIME && start < b.at {
      CoverageMovesOn(end, b);
      MilliMonotone(start, b.at);
      SubMilliCounts(days, t, b.sourceId, start, b.at, q);
    }
  }

  lemma SubMilliRows(days: Grid, res: Resolution, source: string, start: Time, end: Time, q: Span)
    requires Regular(days) && Tiling(GridOf(days, res)) && SpanOn(GridOf(days, q.res), q)
    requires start < end && UnixMilli(start) == UnixMilli(end)
    ensures SumCoverage(CoverRows(res, source, Pieces(GridOf(days, res), start, end)), q) == 0
  {
    CoverCounts(days, res, source, start, end, q);
    SumNonNegative(CoverRows(res, source, Pieces(GridOf(days, res), start, end)), q);
    ClampWithinMilli(q.lo, start, end);
    ClampWithinMilli(q.hi, start, end);
  }

  lemma ExtendTwice(rows: seq<CoverageRow>, a: seq<CoverageRow>, b: seq<CoverageRow>, q: Span)
    ensures SumCoverage(ExtendAll(ExtendAll(rows, a), b), q) == SumCoverage(rows, q) + SumCoverage(a, q) + SumCoverage(b, q)
  {
    ExtendAllCounts(rows, a, q);
    ExtendAllCounts(ExtendAll(rows, a), b, q);
  }

  lemma SubMilliCounts(days: Grid, t: Tables, source: string, start: Time, end: Time, q: Span)
    requires Regular(days) && SpanOn(GridOf(days, q.res), q) && source in t.sources && NonNegative(t.coverage)
    requires start < end && UnixMilli(start) == UnixMilli(end)
    ensures SumCoverage(Covering(days, t, source, start, end).coverage, q) == SumCoverage(t.coverage, q)
  {
    MinutesRegular();
    var minutes := CoverRows(Minute, source, Pieces(Minutes(), start, end));
    var both := CoverRows(Day, source, Pieces(days, start, end));
    SubMilliRows(days, Minute, source, start, end, q);
    SubMilliRows(days, Day, source, start, end, q);
    ExtendTwice(t.coverage, minutes, both, q);
  }

  lemma ClampWithinMilli(t: Time, s: Time, a: Time)
    requires s <= a && UnixMilli(s) == UnixMilli(a)
    ensures UnixMilli(Clamp(t, s, a)) == UnixMilli(s)
  {
    MilliMonotone(s, Clamp(t, s, a));
    MilliMonotone(Clamp(t, s, a), a);
  }

  lemma SettledObserve(days: Grid, t: Tables, b: Batch)
    requires Regular(days) && Observe(days, t, b).Ok? && Settled(t, b)
    ensures Bind(t, b).Ok?
    ensures Observe(days, t, b).value.tables == Bind(t, b).value && Observe(days, t, b).value.accepted == []
  {
    var start := Tx(Bind(t, b).value, 0, []);
    SettledIsIgnored(t, b);
    assert forall e :: e in b.events ==> EventIgnored(start.tables, b.sourceId, e);
    IgnoredEventsNeutral(days, start, b.sourceId, b.events);
    var mid := AddEvents(days, start, b.sourceId, b.events).value;
    assert forall d :: d in b.deltas ==> DeltaIgnored(mid.tables, b.sourceId, d);
    IgnoredDeltasNeutral(days, mid, b.sourceId, b.deltas);
  }

  lemma BoundSettled(t: Tables, b: Batch)
    requires Bind(t, b).Ok? && EndsPastEpoch(t) && CoverageSettled(t, b)
    ensures var t' := Bind(t, b).value;
            && EndsPastEpoch(t') && CoverageSettled(t', b)
            && t'.metrics == t.metrics && t'.details == t.details && t'.imports == t.imports && t'.coverage == t.coverage
  {}

  lemma FinishSettled(days: Grid, tx: Tx, b: Batch, drops: int, q: Span)
    requires Regular(days) && SpanOn(GridOf(days, q.res), q) && b.sourceId in tx.tables.sources && Finish(days, tx, b, drops).Ok?
    requires 0 <= b.at && EndsPastEpoch(tx.tables) && NonNegative(tx.tables.coverage) && CoverageSettled(tx.tables, b)
    ensures var tx' := Finish(days, tx, b, drops).value;
            && tx'.accepted == tx.accepted && tx'.tables.metrics == tx.tables.metrics
            && tx'.tables.details == tx.tables.details && tx'.tables.imports == tx.tables.imports
            && SumCoverage(tx'.tables.coverage, q) == SumCoverage(tx.tables.coverage, q)
  {
    FinishFrame(days, tx, b, drops);
    FinishCovers(days, tx, b, drops);
    SettledCoverage(days, tx.tables, b, q);
  }

  /** A settled batch that commits again accepts nothing and changes no row, no stored
      identity and no coverage total. */
  lemma SettledReplayNeutral(days: Grid, t: Tables, b: Batch, q: Span)
    requires Regular(days) && SpanOn(GridOf(days, q.res), q) && Transact(days, t, b).Ok?
    requires 0 <= b.at && EndsPastEpoch(t) && NonNegative(t.coverage) && Settled(t, b)
    ensures var tx := Transact(days, t, b).value;
            && tx.accepted == [] && tx.tables.metrics == t.metrics
            && tx.tables.details == t.details && tx.tables.imports == t.imports
            && SumCoverage(tx.tables.coverage, q) == SumCoverage(t.coverage, q)
  {
    SettledObserve(days, t, b);
    BoundSettled(t, b);
    FinishSettled(days, Observe(days, t, b).value, b, DropsOf(t, b.sourceId), q);
  }

  /** The stored stamps of a batch's observations are the batch's own: what holds when
      identifiers determine times. */
  predicate StampsMatch(t: Tables, b: Batch) {
    && (forall e :: e in b.events && EventKey(b.sourceId, e) in t.details ==> UnixMilli(e.at) <= t.details[EventKey(b.sourceId, e)])
    && (forall d :: d in b.deltas && d.granularity != "day" && DeltaKey(b.sourceId, d) in t.details ==>
          UnixMilli(d.end) <= t.details[DeltaKey(b.sourceId, d)])
    && (forall d :: d in b.deltas && d.granularity == "day" && ImportKey(b.sourceId, d.id) in t.imports ==>
          UnixMilli(d.start) <= t.imports[ImportKey(b.sourceId, d.id)])
  }

  lemma CommitSettles(days: Grid, t: Tables, b: Batch)
    requires Regular(days) && Transact(days, t, b).Ok? && 0 <= b.at && EndsPastEpoch(t)
    requires StampsMatch(Transact(days, t, b).value.tables, b)
    ensures Settled(Transact(days, t, b).value.tables, b)
  {
    CommitRemembers(days, t, b);
  }

  ghost predicate ModernRun(zones: map<string, Grid>, ops: seq<Op>)
    requires AllRegular(zones)
  {
    forall i :: 0 <= i < |ops| ==> Modern(Run(zones, ops[..i]).tables, ops[i])
  }

  lemma RunPrefix(zones: map<string, Grid>, ops: seq<Op>, i: nat)
    requires AllRegular(zones) && i < |ops| && ModernRun(zones, ops)
    ensures ops[..i + 1][..i] == ops[..i] && Run(zones, ops[..i + 1]) == Apply(zones, Run(zones, ops[..i]), ops[i])
    ensures ModernRun(zones, ops[..i])
  {
    assert ops[..i + 1][..i] == ops[..i];
    forall j | 0 <= j < i ensures Modern(Run(zones, ops[..i][..j]).tables, ops[..i][j]) {
      assert ops[..i][..j] == ops[..j];
    }
  }

  lemma NextEndsPastEpoch(zones: map<string, Grid>, ops: seq<Op>, i: nat)
    requires AllRegular(zones) && ModernRun(zones, ops) && i < |ops| && EndsPastEpoch(Run(zones, ops[..i]).tables)
    ensures EndsPastEpoch(Run(zones, ops[..i + 1]).tables)
  {
    RunPrefix(zones, ops, i);
    StepRemembers(zones, Run(zones, ops[..i]), ops[i]);
  }

  lemma {:induction false} RunEndsPastEpoch(zones: map<string, Grid>, ops: seq<Op>, i: nat)
    requires AllRegular(zones) && ModernRun(zones, ops) && i <= |ops|
    ensures EndsPastEpoch(Run(zones, ops[..i]).tables)
  {
    if i > 0 {
      RunEndsPastEpoch(zones, ops, i - 1);
      NextEndsPastEpoch(zones, ops, i - 1);
    }
  }

  lemma RunRemembers(zones: map<string, Grid>, ops: seq<Op>, i: nat)
    requires AllRegular(zones) && ModernRun(zones, ops) && i < |ops|
    ensures Remembers(Run(zones, ops[..i]).tables, Run(zones, ops[..i + 1]).tables)
  {
    RunEndsPastEpoch(zones, ops, i);
    RunPrefix(zones, ops, i);
    StepRemembers(zones, Run(zones, ops[..i]), ops[i]);
  }

  ghost predicate RemembersAt(at: nat -> Tables, k: nat) { Remembers(at(k), at(k + 1)) }

  lemma {:induction false} SettledAlong(at: nat -> Tables, i: nat, j: nat, b: Batch)
    requires i <= j && Settled(at(i), b) && forall k :: i <= k < j ==> RemembersAt(at, k)
    ensures Settled(at(j), b)
    decreases j
  {
    if i < j {
      SettledAlong(at, i, j - 1, b);
      assert RemembersAt(at, j - 1);
      SettledStays(at(j - 1), at(j), b);
    }
  }

  /** These are the tables of the run, step by step. */
  ghost predicate Traces(zones: map<string, Grid>, ops: seq<Op>, at: nat -> Tables)
    requires AllRegular(zones)
  {
    forall k: nat {:trigger at(k)} :: k <= |ops| ==> at(k) == Run(zones, ops[..k]).tables
  }

  lemma TracesRemember(zones: map<string, Grid>, ops: seq<Op>, at: nat -> Tables)
    requires AllRegular(zones) && ModernRun(zones, ops) && Traces(zones, ops, at)
    ensures forall k {:trigger RemembersAt(at, k)} :: 0 <= k < |ops| ==> RemembersAt(at, k)
  {
    forall k | 0 <= k < |ops| ensures RemembersAt(at, k) {
      RunRemembers(zones, ops, k);
    }
  }

  /** A batch once settled stays settled through every later step. */
  lemma SettledForGood(zones: map<string, Grid>, ops: seq<Op>, i: nat, j: nat, b: Batch)
    requires AllRegular(zones) && ModernRun(zones, ops) && i <= j <= |ops|
    requires Settled(Run(zones, ops[..i]).tables, b)
    ensures Settled(Run(zones, ops[..j]).tables, b)
  {
    var at := (k: nat) => if k <= |ops| then Run(zones, ops[..k]).tables else EMPTY_TABLES;
    TracesRemember(zones, ops, at);
    SettledAlong(at, i, j, b);
  }

  /** A committed batch is settled at the end of the run, whatever came after it. */
  lemma CommittedStaysSettled(zones: map<string, Grid>, ops: seq<Op>, i: nat)
    requires AllRegular(zones) && ModernRun(zones, ops) && i < |ops| && ops[i].IngestOp?
    requires Ingest(zones, Run(zones, ops[..i]).tables, ops[i].batch, ops[i].storage).Ok?
    requires StampsMatch(Run(zones, ops[..i + 1]).tables, ops[i].batch)
    ensures Settled(Run(zones, ops).tables, ops[i].batch) && 0 <= ops[i].batch.at
    ensures EndsPastEpoch(Run(zones, ops).tables) && NonNegative(Run(zones, ops).tables.coverage)
  {
    var b := ops[i].batch;
    assert ops[..|ops|] == ops;
    RunPrefix(zones, ops, i);
    RunEndsPastEpoch(zones, ops, i);
    RunEndsPastEpoch(zones, ops, |ops|);
    CommitSettles(zones[ZoneName(b)], Run(zones, ops[..i]).tables, b);
    SettledForGood(zones, ops, i + 1, |ops|, b);
    RunNonNegative(zones, ops, |ops|);
  }

  /** Whatever ingests, prunes and evictions happen after a batch commits, committing it
      again changes no metric, no stored identity and no coverage total. */
  lemma ReplayChangesNothing(zones: map<string, Grid>, ops: seq<Op>, i: nat, storage: Storage, q: Span)
    requires AllRegular(zones) && ModernRun(zones, ops) && i < |ops| && ops[i].IngestOp?
    requires var b := ops[i].batch;
             && Ingest(zones, Run(zones, ops[..i]).tables, b, ops[i].storage).Ok?
             && StampsMatch(Run(zones, ops[..i + 1]).tables, b)
             && Ingest(zones, Run(zones, ops).tables, b, storage).Ok?
             && SpanOn(GridOf(zones[ZoneName(b)], q.res), q)
    ensures var t := Run(zones, ops).tables;
            var w := Apply(zones, Run(zones, ops), IngestOp(ops[i].batch, storage));
            && w.history == Run(zones, ops).history && w.tables.metrics == t.metrics
            && w.tables.details == t.details && w.tables.imports == t.imports
            && SumCoverage(w.tables.coverage, q) == SumCoverage(t.coverage, q)
  {
    CommittedStaysSettled(zones, ops, i);
    SettledReplayNeutral(zones[ZoneName(ops[i].batch)], Run(zones, ops).tables, ops[i].batch, q);
  }

  lemma NextNonNegative(zones: map<string, Grid>, ops: seq<Op>, i: nat)
    requires AllRegular(zones) && ModernRun(zones, ops) && i < |ops| && NonNegative(Run(zones, ops[..i]).tables.coverage)
    ensures NonNegative(Run(zones, ops[..i + 1]).tables.coverage)
  {
    RunPrefix(zones, ops, i);
    StepNonNegative(zones, Run(zones, ops[..i]), ops[i]);
  }

  lemma {:induction false} RunNonNegative(zones: map<string, Grid>, ops: seq<Op>, i: nat)
    requires AllRegular(zones) && ModernRun(zones, ops) && i <= |ops|
    ensures NonNegative(Run(zones, ops[..i]).tables.coverage)
  {
    if i > 0 {
      RunNonNegative(zones, ops, i - 1);
      NextNonNegative(zones, ops, i - 1);
    }
  }

  // ---------- exactly when ----------

  /** An ignored event stays ignored under every later horizon exactly when it is settled:
      stored under an earlier stamp, some horizon removes the store and not the event. */
  lemma EventReplayProofIff(t: Tables, source: string, e: Event)
    requires 0 <= Cut(t.detailCutoff)
    ensures EventSettled(t, source, e) <==>
            EventIgnored(t, source, e) && forall h: Horizon :: 0 <= h.detail ==> EventIgnored(Prune(t, h), source, e)
  {
    if EventIgnored(t, source, e) && !EventSettled(t, source, e) {
      var h := Horizon(e.at, 0, 0);
      assert !EventIgnored(Prune(t, h), source, e);
    }
  }

  lemma IntervalReplayProofIff(t: Tables, source: string, d: Delta)
    requires 0 <= Cut(t.detailCutoff) && d.granularity != "day"
    ensures DeltaSettled(t, source, d) <==>
            DeltaIgnored(t, source, d) && forall h: Horizon :: 0 <= h.detail ==> DeltaIgnored(Prune(t, h), source, d)
  {
    if DeltaIgnored(t, source, d) && !DeltaSettled(t, source, d) {
      var h := Horizon(d.end - 1_000_000, 0, 0);
      assert UnixMilli(h.detail) == UnixMilli(d.end) - 1;
      assert !DeltaIgnored(Prune(t, h), source, d);
    }
  }

  lemma ImportReplayProofIff(t: Tables, source: string, d: Delta)
    requires 0 <= Cut(t.dayCutoff) && d.granularity == "day"
    ensures DeltaSettled(t, source, d) <==>
            DeltaIgnored(t, source, d) && forall h: Horizon :: 0 <= h.day ==> DeltaIgnored(Prune(t, h), source, d)
  {
    if DeltaIgnored(t, source, d) && !DeltaSettled(t, source, d) {
      var h := Horizon(0, 0, d.start);
      assert !DeltaIgnored(Prune(t, h), source, d);
    }
  }
}
