/** What a calendar says elsewhere does not matter: a run sees a location only at the instants
    its observations and buckets bring up. */
module Elsewhere {
  import opened Clock
  import opened Calendar
  import opened Split
  import opened Ledger
  import opened History

  // A location with unusual rules in its past may be replaced by any regular one that agrees
  // with it at the instants of the run.

  /** The two file the instant under the same bucket and end that bucket at the same instant. */
  predicate AgreeAt(g: Grid, g': Grid, t: Time) { g.floor(t) == g'.floor(t) && g.after(g.floor(t)) == g'.after(g'.floor(t)) }

  ghost predicate Agree(g: Grid, g': Grid, lo: Time, hi: Time) { forall t :: lo <= t < hi ==> AgreeAt(g, g', t) }

  /** The program's cutting loop over any location visits what the loop over an agreeing
      regular one visits, and so ends as that does. */
  lemma {:induction false} LoopAgrees(g: Grid, g': Grid, start: Time, end: Time, k: nat)
    requires Tiling(g') && Agree(g, g', start, end)
    ensures Position(g, start, end, k) == Position(g', start, end, k) && start <= Position(g', start, end, k)
  {
    if k > 0 {
      LoopAgrees(g, g', start, end, k - 1);
      var t := Position(g', start, end, k - 1);
      if t < end { assert AgreeAt(g, g', t); }
    }
  }

  lemma LoopEnds(g: Grid, g': Grid, start: Time, end: Time)
    requires Tiling(g') && Agree(g, g', start, end)
    ensures Terminates(g, start, end) && Advancing(g, start, end)
  {
    var k := Max(0, end - start);
    Advances(g', start, end, k);
    LoopAgrees(g, g', start, end, k);
    forall t | start <= t < end ensures Progresses(g, t) {
      assert AgreeAt(g, g', t) && g'.floor(t) <= t;
    }
  }

  lemma {:induction false} SamePieces(g: Grid, g': Grid, at: Time, end: Time)
    requires Tiling(g') && Agree(g, g', at, end)
    ensures Pieces(g, at, end) == Pieces(g', at, end)
    decreases end - at
  {
    if at < end {
      assert AgreeAt(g, g', at);
      SamePieces(g, g', Next(g, at, end), end);
    }
  }

  // ---------- one batch ----------

  lemma SameRows(days: Grid, days': Grid, res: Resolution, source: string, dims: Dimensions, start: Time, end: Time, up: int, down: int)
    requires Regular(days') && Agree(days, days', start, end)
    ensures IntervalRows(days, res, source, dims, start, end, up, down) == IntervalRows(days', res, source, dims, start, end, up, down)
  {
    if start < end && res.Day? { SamePieces(days, days', start, end); }
  }

  lemma {:induction false} SameEvents(days: Grid, days': Grid, tx: Tx, source: string, events: seq<Event>)
    requires Regular(days') && forall i :: 0 <= i < |events| ==> AgreeAt(days, days', events[i].at)
    ensures AddEvents(days, tx, source, events) == AddEvents(days', tx, source, events)
    decreases |events|
  {
    if events != [] {
      SameEvent(days, days', tx, source, events[0]);
      if AddEvent(days, tx, source, events[0]).Ok? { SameEvents(days, days', AddEvent(days, tx, source, events[0]).value, source, events[1..]); }
    }
  }

  lemma SameEvent(days: Grid, days': Grid, tx: Tx, source: string, e: Event)
    requires Regular(days') && AgreeAt(days, days', e.at)
    ensures AddEvent(days, tx, source, e) == AddEvent(days', tx, source, e)
  {}

  lemma SameDelta(days: Grid, days': Grid, tx: Tx, source: string, d: Delta)
    requires Regular(days') && source in tx.tables.sources && AgreeAt(days, days', d.start) && Agree(days, days', d.start, d.end)
    ensures AddDelta(days, tx, source, d) == AddDelta(days', tx, source, d)
  {
    SameRows(days, days', Minute, source, Normalize(d.dims), d.start, d.end, d.up, d.down);
    SameRows(days, days', Day, source, Normalize(d.dims), d.start, d.end, d.up, d.down);
  }

  lemma {:induction false} SameDeltas(days: Grid, days': Grid, tx: Tx, source: string, deltas: seq<Delta>)
    requires Regular(days') && source in tx.tables.sources
    requires forall i :: 0 <= i < |deltas| ==> AgreeAt(days, days', deltas[i].start) && Agree(days, days', deltas[i].start, deltas[i].end)
    ensures AddDeltas(days, tx, source, deltas) == AddDeltas(days', tx, source, deltas)
    decreases |deltas|
  {
    if deltas != [] {
      SameDelta(days, days', tx, source, deltas[0]);
      if AddDelta(days, tx, source, deltas[0]).Ok? { SameDeltas(days, days', AddDelta(days, tx, source, deltas[0]).value, source, deltas[1..]); }
    }
  }

  /** Where a batch's coverage starts, given the table before it. */
  function CoverStart(t: Tables, b: Batch): Time {
    CoverageFrom(if b.sourceId in t.sources then t.sources[b.sourceId].coverageEnd else 0, b)
  }

  /** The grids agree at every instant the batch brings up. */
  ghost predicate BatchAgrees(days: Grid, days': Grid, t: Tables, b: Batch) {
    && (forall i :: 0 <= i < |b.events| ==> AgreeAt(days, days', b.events[i].at))
    && (forall i :: 0 <= i < |b.deltas| ==> AgreeAt(days, days', b.deltas[i].start) && Agree(days, days', b.deltas[i].start, b.deltas[i].end))
    && (b.coverageStart != ZERO_TIME ==> Agree(days, days', CoverStart(t, b), b.at))
  }

  lemma SameCover(days: Grid, days': Grid, t: Tables, b: Batch)
    requires Regular(days') && b.sourceId in t.sources
    requires b.coverageStart != ZERO_TIME ==> Agree(days, days', CoverageFrom(t.sources[b.sourceId].coverageEnd, b), b.at)
    ensures Cover(days, t, b) == Cover(days', t, b)
  {
    var start := CoverageFrom(t.sources[b.sourceId].coverageEnd, b);
    if b.coverageStart != ZERO_TIME && start < b.at { SamePieces(days, days', start, b.at); }
  }

  lemma SameObserve(days: Grid, days': Grid, t: Tables, b: Batch)
    requires Regular(days') && BatchAgrees(days, days', t, b)
    ensures Observe(days, t, b) == Observe(days', t, b)
  {
    if Bind(t, b).Ok? {
      var start := Tx(Bind(t, b).value, 0, []);
      SameEvents(days, days', start, b.sourceId, b.events);
      if AddEvents(days, start, b.sourceId, b.events).Ok? {
        SameDeltas(days, days', AddEvents(days, start, b.sourceId, b.events).value, b.sourceId, b.deltas);
      }
    }
  }

  lemma SameTransact(days: Grid, days': Grid, t: Tables, b: Batch)
    requires Regular(days') && BatchAgrees(days, days', t, b)
    ensures Transact(days, t, b) == Transact(days', t, b)
  {
    SameObserve(days, days', t, b);
    if Observe(days, t, b).Ok? {
      ObserveFrame(days', t, b);
      SameCover(days, days', Observe(days, t, b).value.tables, b);
    }
  }

  // ---------- whole runs ----------

  ghost predicate OpAgrees(zones: map<string, Grid>, zones': map<string, Grid>, t: Tables, op: Op)
    requires zones.Keys == zones'.Keys
  {
    match op
    case IngestOp(b, _) => ZoneName(b) in zones ==> BatchAgrees(zones[ZoneName(b)], zones'[ZoneName(b)], t, b)
    case PruneOp(_) => true
    case EvictOp(tz, _) =>
      var day := OldestBucket(t.metrics, Day);
      tz in zones && day.Some? ==> zones[tz].after(FromMillis(day.value)) == zones'[tz].after(FromMillis(day.value))
  }

  lemma SameStep(zones: map<string, Grid>, zones': map<string, Grid>, w: World, op: Op)
    requires AllRegular(zones') && zones.Keys == zones'.Keys && OpAgrees(zones, zones', w.tables, op)
    ensures Apply(zones, w, op) == Apply(zones', w, op)
  {
    if op.IngestOp? && ZoneName(op.batch) in zones {
      SameTransact(zones[ZoneName(op.batch)], zones'[ZoneName(op.batch)], w.tables, op.batch);
    }
  }

  /** Whatever the locations are: where regular ones agree with them at the instants of a run,
      the run leaves the same tables and the same accepted observations. */
  lemma {:induction false} RunsAgree(zones: map<string, Grid>, zones': map<string, Grid>, ops: seq<Op>)
    requires AllRegular(zones') && zones.Keys == zones'.Keys
    requires forall i :: 0 <= i < |ops| ==> OpAgrees(zones, zones', Run(zones, ops[..i]).tables, ops[i])
    ensures Run(zones, ops) == Run(zones', ops)
  {
    if ops != [] {
      var before := ops[..|ops| - 1];
      forall i | 0 <= i < |before| ensures OpAgrees(zones, zones', Run(zones, before[..i]).tables, before[i]) {
        assert before[..i] == ops[..i];
      }
      RunsAgree(zones, zones', before);
      SameStep(zones, zones', Run(zones, before), ops[|ops| - 1]);
    }
  }

  /** So over any locations that regular ones agree with, the table answers from the accepted
      observations. */
  lemma AnswersElsewhere(zones: map<string, Grid>, zones': map<string, Grid>, ops: seq<Op>, days': Grid, f: Filter)
    requires AllRegular(zones') && zones.Keys == zones'.Keys
    requires forall i :: 0 <= i < |ops| ==> OpAgrees(zones, zones', Run(zones, ops[..i]).tables, ops[i])
    requires Regular(days') && Aligned(days', f) && Pinned(zones', Run(zones, ops).tables, days') && Retained(Run(zones, ops).tables, f)
    ensures SumRows(Run(zones, ops).tables.metrics, f) == Expected(Run(zones, ops).history, f)
  {
    RunsAgree(zones, zones', ops);
    LedgerAnswersFromHistory(zones', ops, days', f);
  }
}
