/** Every drop is counted exactly once. */
module Drops {
  import opened Wrappers
  import opened Clock
  import opened Calendar
  import opened Ledger
  import opened History

  // The collector counts its own drops in memory, retention counts its drops in the source
  // row, and the stored status mixes both, although an ingest only ever completes a copy of
  // the memory.

  /** SourceStatus: the stored status brought up to date with the source row. */
  function ReadStatus(row: Source): Status {
    var v := if row.status.Some? then row.status.value else NEW_STATUS;
    v.(droppedEvents := v.droppedEvents + Max(0, row.retentionDrops - v.retentionDropped), retentionDropped := row.retentionDrops)
  }

  /** One source over its collector's life: the database, the status in memory, the
      drops the collector made, and those it had made when a status last committed. */
  datatype Life = Life(tables: Tables, memory: Status, own: int, saved: int)

  datatype Step =
    | DropOwn(n: nat, note: Status)
    | Poll(batch: Batch, storage: Storage)
    | Import(batch: Batch, storage: Storage)
    | Restart
    | Retain(op: Op)

  /** Steps of the source id. A poll passes the status in memory along with its batch; an
      import passes none; a restart reads the stored status back. */
  ghost function Next(zones: map<string, Grid>, id: string, l: Life, s: Step): Life
    requires AllRegular(zones)
  {
    match s
    case DropOwn(n, note) =>
      l.(memory := note.(droppedEvents := l.memory.droppedEvents + n, retentionDropped := l.memory.retentionDropped), own := l.own + n)
    case Poll(b, storage) =>
      var r := Ingest(zones, l.tables, b.(sourceId := id, status := Some(l.memory)), storage);
      if r.Ok? then l.(tables := r.value.tables, saved := l.own) else l
    case Import(b, storage) =>
      var r := Ingest(zones, l.tables, b.(sourceId := id, status := None), storage);
      if r.Ok? then l.(tables := r.value.tables) else l
    case Restart =>
      if id in l.tables.sources then l.(memory := ReadStatus(l.tables.sources[id]), own := l.saved)
      else l.(memory := NEW_STATUS, own := 0)
    case Retain(op) =>
      l.(tables := History.Retain(zones, l.tables, op))
  }

  ghost function Live(zones: map<string, Grid>, id: string, steps: seq<Step>): Life
    requires AllRegular(zones)
  {
    if steps == [] then Life(EMPTY_TABLES, NEW_STATUS, 0, 0)
    else Next(zones, id, Live(zones, id, steps[..|steps| - 1]), steps[|steps| - 1])
  }

  lemma {:induction false} EventsSkip(days: Grid, tx: Tx, source: string, events: seq<Event>)
    requires Regular(days) && AddEvents(days, tx, source, events).Ok?
    ensures tx.skipped <= AddEvents(days, tx, source, events).value.skipped
    decreases |events|
  {
    if events != [] {
      EventsSkip(days, AddEvent(days, tx, source, events[0]).value, source, events[1..]);
    }
  }

  /** Deltas change neither drop count nor status of any source row. */
  lemma {:induction false} DeltasSkip(days: Grid, tx: Tx, source: string, deltas: seq<Delta>)
    requires Regular(days) && source in tx.tables.sources && AddDeltas(days, tx, source, deltas).Ok?
    ensures tx.skipped <= AddDeltas(days, tx, source, deltas).value.skipped
    decreases |deltas|
  {
    if deltas != [] {
      DeltasSkip(days, AddDelta(days, tx, source, deltas[0]).value, source, deltas[1..]);
    }
  }

  lemma ObserveSkips(days: Grid, t: Tables, b: Batch)
    requires Regular(days) && Observe(days, t, b).Ok?
    ensures 0 <= Observe(days, t, b).value.skipped
  {
    var start := Tx(Bind(t, b).value, 0, []);
    EventsSkip(days, start, b.sourceId, b.events);
    DeltasSkip(days, AddEvents(days, start, b.sourceId, b.events).value, b.sourceId, b.deltas);
  }

  lemma ObserveKeepsCounts(days: Grid, t: Tables, b: Batch)
    requires Regular(days) && Observe(days, t, b).Ok?
    ensures var row := Observe(days, t, b).value.tables.sources[b.sourceId];
            && row.retentionDrops == DropsOf(t, b.sourceId)
            && row.status == if b.sourceId in t.sources then t.sources[b.sourceId].status else None
  {
    ObserveFrame(days, t, b);
  }

  lemma FinishCounts(days: Grid, tx: Tx, b: Batch, drops: int)
    requires Regular(days) && b.sourceId in tx.tables.sources && Finish(days, tx, b, drops).Ok? && 0 <= tx.skipped
    ensures Finish(days, tx, b, drops).value.skipped == tx.skipped && b.sourceId in Finish(days, tx, b, drops).value.tables.sources
    ensures var row := Finish(days, tx, b, drops).value.tables.sources[b.sourceId];
            && row.retentionDrops == tx.tables.sources[b.sourceId].retentionDrops + tx.skipped
            && row.status == if b.status.Some? then Some(StoredStatus(b.status.value, drops + tx.skipped)) else tx.tables.sources[b.sourceId].status
  {}

  /** What a commit leaves in the source row. */
  lemma CommitCounts(days: Grid, t: Tables, b: Batch)
    requires Regular(days) && Transact(days, t, b).Ok?
    ensures var tx := Transact(days, t, b).value;
            && 0 <= tx.skipped && b.sourceId in tx.tables.sources
            && var row := tx.tables.sources[b.sourceId];
               && row.retentionDrops == DropsOf(t, b.sourceId) + tx.skipped
               && row.status == (if b.status.Some? then Some(StoredStatus(b.status.value, row.retentionDrops))
                                 else if b.sourceId in t.sources then t.sources[b.sourceId].status else None)
  {
    ObserveSkips(days, t, b);
    ObserveKeepsCounts(days, t, b);
    FinishCounts(days, Observe(days, t, b).value, b, DropsOf(t, b.sourceId));
  }

  // ---------- the invariant ----------

  predicate Balanced(s: Status, own: int, drops: int) {
    s.droppedEvents == own + s.retentionDropped && s.retentionDropped <= drops
  }

  predicate Accounted(id: string, l: Life) {
    && Balanced(l.memory, l.own, DropsOf(l.tables, id))
    && 0 <= DropsOf(l.tables, id)
    && (if id in l.tables.sources && l.tables.sources[id].status.Some?
        then Balanced(l.tables.sources[id].status.value, l.saved, DropsOf(l.tables, id))
        else l.saved == 0)
  }

  lemma RetentionKeepsSources(zones: map<string, Grid>, t: Tables, op: Op)
    requires AllRegular(zones)
    ensures History.Retain(zones, t, op).sources == t.sources
  {}

  lemma StepAccounted(zones: map<string, Grid>, id: string, l: Life, s: Step)
    requires AllRegular(zones) && Accounted(id, l)
    ensures Accounted(id, Next(zones, id, l, s))
  {
    match s
    case DropOwn(_, _) =>
    case Poll(b, storage) =>
      var c := b.(sourceId := id, status := Some(l.memory));
      if Ingest(zones, l.tables, c, storage).Ok? { CommitCounts(zones[ZoneName(c)], l.tables, c); }
    case Import(b, storage) =>
      var c := b.(sourceId := id, status := None);
      if Ingest(zones, l.tables, c, storage).Ok? { CommitCounts(zones[ZoneName(c)], l.tables, c); }
    case Restart =>
    case Retain(op) => RetentionKeepsSources(zones, l.tables, op);
  }

  /** Over any sequence of own drops, polls, imports, failures, retention passes and
      restarts, the status a reader sees counts the collector's drops up to its last
      commit and every retention drop, each exactly once. */
  lemma {:induction false} DropsCountedOnce(zones: map<string, Grid>, id: string, steps: seq<Step>)
    requires AllRegular(zones)
    ensures var l := Live(zones, id, steps);
            && Accounted(id, l)
            && (id in l.tables.sources ==>
                  ReadStatus(l.tables.sources[id]).droppedEvents == l.saved + l.tables.sources[id].retentionDrops)
  {
    if steps != [] {
      DropsCountedOnce(zones, id, steps[..|steps| - 1]);
      StepAccounted(zones, id, Live(zones, id, steps[..|steps| - 1]), steps[|steps| - 1]);
    }
  }

  /** Right after a committed poll nothing is missing: the reader sees all drops there were. */
  lemma PollReportsEverything(zones: map<string, Grid>, id: string, steps: seq<Step>, b: Batch, storage: Storage)
    requires AllRegular(zones)
    requires Ingest(zones, Live(zones, id, steps).tables, b.(sourceId := id, status := Some(Live(zones, id, steps).memory)), storage).Ok?
    ensures var l := Live(zones, id, steps);
            var l' := Next(zones, id, l, Poll(b, storage));
            && id in l'.tables.sources
            && ReadStatus(l'.tables.sources[id]).droppedEvents == l.own + l'.tables.sources[id].retentionDrops
  {
    var l := Live(zones, id, steps);
    var c := b.(sourceId := id, status := Some(l.memory));
    DropsCountedOnce(zones, id, steps);
    StepAccounted(zones, id, l, Poll(b, storage));
    CommitCounts(zones[ZoneName(c)], l.tables, c);
  }
}
