/** When the ledger takes a batch of events. */
module Accepting {
  import opened Clock
  import opened Calendar
  import opened Ledger
  import opened History
  import opened Coverage
  import Collector

  // One event that does not pass validation refuses the whole batch; where nothing else
  // hinders it, that is the only thing that does.

  /** Every row takes n more events without leaving 64 bits. */
  predicate HasRoom(rows: seq<MetricRow>, n: nat) {
    forall i :: 0 <= i < |rows| ==>
      rows[i].amount.up <= MAX_INT64 && rows[i].amount.down <= MAX_INT64 && rows[i].amount.events <= MAX_INT64 - n
  }

  predicate Single(events: seq<Event>) { forall i :: 0 <= i < |events| ==> events[i].count == 1 }

  predicate AllValid(events: seq<Event>) { forall i :: 0 <= i < |events| ==> ValidEvent(events[i]) }

  lemma {:induction false} UpsertRoom(rows: seq<MetricRow>, add: MetricRow, n: nat)
    requires HasRoom(rows, n) && 0 < n <= MAX_INT64 && add.amount == Amount(0, 0, 1)
    ensures Upsert(rows, add).Ok? && HasRoom(Upsert(rows, add).value, n - 1)
  {
    if rows != [] && rows[0].key != add.key {
      UpsertRoom(rows[1..], add, n);
    }
  }

  lemma TwoRoom(rows: seq<MetricRow>, a: MetricRow, b: MetricRow, n: nat)
    requires HasRoom(rows, n + 2) && n + 2 <= MAX_INT64 && a.amount == b.amount == Amount(0, 0, 1)
    ensures AddRows(rows, [a, b]).Ok? && HasRoom(AddRows(rows, [a, b]).value, n)
  {
    UpsertRoom(rows, a, n + 2);
    var more := Upsert(rows, a).value;
    UpsertRoom(more, b, n + 1);
    assert [a, b][1..] == [b] && [b][1..] == [];
    assert AddRows(more, [b]) == Upsert(more, b);
  }

  lemma EventRoom(days: Grid, tx: Tx, source: string, e: Event, n: nat)
    requires Regular(days) && HasRoom(tx.tables.metrics, n + 2) && n + 2 <= MAX_INT64 && e.count == 1 && ValidEvent(e)
    ensures AddEvent(days, tx, source, e).Ok? && HasRoom(AddEvent(days, tx, source, e).value.tables.metrics, n)
  {
    TwoRoom(tx.tables.metrics, EventRow(Minute, TruncateMinute(e.at), source, Normalize(e.dims), e.at, 1),
            EventRow(Day, days.floor(e.at), source, Normalize(e.dims), e.at, 1), n);
  }

  lemma {:induction false} EventsTakenIff(days: Grid, tx: Tx, source: string, events: seq<Event>, n: nat)
    requires Regular(days) && Single(events) && HasRoom(tx.tables.metrics, 2 * |events| + n) && 2 * |events| + n <= MAX_INT64
    ensures AddEvents(days, tx, source, events).Ok? <==> AllValid(events)
    ensures AllValid(events) ==> HasRoom(AddEvents(days, tx, source, events).value.tables.metrics, n)
    decreases |events|
  {
    if events != [] && ValidEvent(events[0]) {
      EventRoom(days, tx, source, events[0], 2 * |events[1..]| + n);
      EventsTakenIff(days, AddEvent(days, tx, source, events[0]).value, source, events[1..], n);
      assert AllValid(events[1..]) ==> AllValid(events) by {
        if AllValid(events[1..]) {
          forall i | 0 <= i < |events| ensures ValidEvent(events[i]) {
            if i > 0 { assert events[1..][i - 1] == events[i]; }
          }
        }
      }
    }
  }

  predicate CoverFits(t: Tables, b: Batch) { b.coverageStart == ZERO_TIME || b.at - CoverageFrom(CoveredTo(t, b.sourceId), b) <= MAX_SPAN }

  predicate CheckpointFits(b: Batch) {
    b.checkpoint.None? || (0 < |b.checkpoint.value.key| <= 128 && |b.checkpoint.value.value| <= 1048576 && b.checkpoint.value.validJson)
  }

  /** Nothing but its events can make the ledger refuse the batch. */
  ghost predicate Unhindered(zones: map<string, Grid>, k: Collector.Book, b: Batch, d: Collector.Disk) {
    && BatchError(b).None? && ZoneName(b) in zones && !k.pressure && !d.overBudget && !d.full
    && Bind(k.tables, b).Ok? && b.deltas == [] && Single(b.events) && HasRoom(k.tables.metrics, 2 * |b.events|)
    && CoverFits(k.tables, b) && CheckpointFits(b)
  }

  lemma FinishTakes(days: Grid, tx: Tx, b: Batch, drops: int)
    requires Regular(days) && b.sourceId in tx.tables.sources && CoverFits(tx.tables, b) && CheckpointFits(b)
    ensures Finish(days, tx, b, drops).Ok?
  {}

  lemma TransactTakesIff(days: Grid, t: Tables, b: Batch, n: nat)
    requires Regular(days) && Bind(t, b).Ok? && b.deltas == [] && Single(b.events) && CoverFits(t, b) && CheckpointFits(b)
    requires HasRoom(t.metrics, 2 * |b.events| + n) && 2 * |b.events| + n <= MAX_INT64
    ensures Transact(days, t, b).Ok? <==> AllValid(b.events)
    ensures AllValid(b.events) ==> HasRoom(Transact(days, t, b).value.tables.metrics, n)
  {
    var start := Tx(Bind(t, b).value, 0, []);
    EventsTakenIff(days, start, b.sourceId, b.events, n);
    if AllValid(b.events) {
      EventsFrame(days, start, b.sourceId, b.events);
      var tx := Observe(days, t, b).value;
      FinishTakes(days, tx, b, DropsOf(t, b.sourceId));
      FinishFrame(days, tx, b, DropsOf(t, b.sourceId));
    }
  }

  /** Unhindered, a batch is taken exactly when all its events are valid. */
  lemma TakenIff(zones: map<string, Grid>, k: Collector.Book, b: Batch, d: Collector.Disk)
    requires AllRegular(zones) && Unhindered(zones, k, b, d)
    ensures Collector.Offer(zones, k, b, d).1.None? <==> AllValid(b.events)
  {
    TransactTakesIff(zones[ZoneName(b)], k.tables, b, 0);
  }
}
