/** One turn of a counter source: read, measure, commit, fall back to the compact form under
    storage pressure, or roll back; and the store as the collector sees it, which answers
    every batch offered. */
module Collector {
  import opened Wrappers
  import opened Clock
  import opened Calendar
  import opened Ledger
  import opened SourceId
  import opened Counters
  import opened Compact
  import Store

  /** A source's configuration; the text of its checkpoint is not interpreted. */
  datatype Config = Config(
    id: string, kind: string, scope: string, fingerprint: string, timezone: string, maxGap: int,
    checkpointText: (Time, nat) -> string)

  /** What reading the counters gave. */
  datatype Reading =
    | Unavailable(now: Time, message: string)
    | Counted(now: Time, values: map<string, Counter>, keys: seq<string>, totals: Option<Totals>, dropped: nat)

  /** The collector's memory of a source. */
  datatype Desk = Desk(tracked: Tracked, total: Option<Totals>, status: Status)

  ghost predicate Readable(r: Reading) { r.Counted? ==> Listing(r.keys, r.values) }

  function PollOf(c: Config, r: Reading): Poll
    requires r.Counted?
  {
    Poll(c.id, r.now, r.values, c.maxGap, c.kind == "mihomo")
  }

  function EmptyBatch(c: Config, now: Time): Batch {
    Batch(c.id, c.kind, c.scope, c.timezone, false, now, [], [], Some(SourceMeta(c.id, c.kind, c.scope, c.fingerprint)), None, None, ZERO_TIME)
  }

  /** What the tracker makes of a reading. */
  function Yield(n: Naming, c: Config, desk: Desk, r: Reading): Watched
    requires r.Counted? && forall k :: k in r.keys ==> k in r.values
  {
    var p := PollOf(c, r);
    if c.kind == "mihomo" then WatchedOf(n, desk.tracked, p, r.keys, desk.total, r.totals)
    else Watched(DeltasOf(n, desk.tracked, p, r.keys), CoverageOf(desk.tracked, p), ResetsOf(n, desk.tracked, p, r.keys), false)
  }

  function MeasuredBatch(n: Naming, c: Config, desk: Desk, r: Reading): Batch
    requires r.Counted? && forall k :: k in r.keys ==> k in r.values
  {
    var y := Yield(n, c, desk, r);
    var p := PollOf(c, r);
    EmptyBatch(c, r.now).(
      deltas := y.deltas, coverageStart := y.coverage,
      events := if c.kind == "mihomo" then EventsOf(n, desk.tracked, p, r.keys) else [],
      checkpoint := Some(Checkpoint("counters", c.checkpointText(r.now, |r.values|), true, r.now)))
  }

  function Gap(c: Config, t: Tracked, now: Time): nat {
    if t.last != ZERO_TIME && (now <= t.last || now - t.last > c.maxGap) then 1 else 0
  }

  /** The status after a successful reading: the worst that happened names the state. */
  function Noted(s: Status, gaps: nat, y: Watched, dropped: nat): Status {
    var counted := s.(gapCount := s.gapCount + gaps, resetCount := s.resetCount + y.resets, droppedEvents := s.droppedEvents + dropped);
    if y.mismatch then counted.(state := Incomplete, message := AttributionLost)
    else if dropped > 0 || y.resets > 0 || gaps > 0 then counted.(state := Incomplete, message := SomeLost)
    else if y.coverage == ZERO_TIME then counted.(state := AtBaseline, message := BaselineTaken)
    else counted.(state := Collecting, message := Cleared)
  }

  function StatusAfterReading(n: Naming, c: Config, desk: Desk, r: Reading): Status
    requires r.Counted? ==> forall k :: k in r.keys ==> k in r.values
  {
    var s := desk.status;
    match r
    case Unavailable(_, message) =>
      s.(gapCount := s.gapCount + if s.state != SourceDown then 1 else 0, state := SourceDown, message := Told(message))
    case Counted(now, values, keys, totals, dropped) =>
      var y := Yield(n, c, desk, r);
      Noted(s, Gap(c, desk.tracked, now) + if y.mismatch then 1 else 0, y, dropped)
  }

  function BatchOf(n: Naming, c: Config, desk: Desk, r: Reading): Batch
    requires r.Counted? ==> forall k :: k in r.keys ==> k in r.values
  {
    if r.Counted? then MeasuredBatch(n, c, desk, r) else EmptyBatch(c, r.now)
  }

  function DeskAfterReading(n: Naming, c: Config, desk: Desk, r: Reading): Desk
    requires r.Counted? ==> forall k :: k in r.keys ==> k in r.values
  {
    var status := StatusAfterReading(n, c, desk, r);
    if r.Counted? then Desk(Tracked(r.now, r.values), if c.kind == "mihomo" then r.totals else desk.total, status)
    else Desk(FORGOTTEN, None, status)
  }

  function Attributed(ds: seq<Delta>): nat {
    if ds == [] then 0 else (if ds[0].dims != NO_ATTRIBUTION then 1 else 0) + Attributed(ds[1..])
  }

  /** The status sent with a compact batch owns up to the detail it leaves out. */
  function CompactStatus(s: Status, b: Batch): Status {
    s.(state := UnderPressure, message := CompactOnly,
       droppedEvents := s.droppedEvents + |b.events| + Attributed(b.deltas))
  }

  /** After a failed commit nothing measured so far is a baseline for what follows. */
  function RolledBack(s: Status, e: Error): Desk {
    var gap := s.(gapCount := s.gapCount + 1);
    Desk(FORGOTTEN, None, if e == StorageLimit then gap.(state := UnderPressure, message := BudgetReached) else gap)
  }

  // ---------- the store's side ----------

  datatype Book = Book(tables: Tables, history: seq<Observation>, pressure: bool)

  datatype Disk = Disk(overBudget: bool, full: bool)

  ghost function Offer(zones: map<string, Grid>, k: Book, b: Batch, d: Disk): (Book, Option<Error>)
    requires AllRegular(zones)
  {
    var storage := Storage(k.pressure, d.overBudget, d.full);
    match Ledger.Ingest(zones, k.tables, b, storage)
    case Ok(tx) => (Book(tx.tables, k.history + tx.accepted, k.pressure), None)
    case Err(e) => (k.(pressure := k.pressure || Store.Fills(zones, b, storage)), Some(e))
  }

  /** The store as the collector sees it. This is Offer under a second name, which keeps its
      definition out of the proofs that do not need it. */
  type Teller = (Book, Batch, Disk) -> (Book, Option<Error>)

  /** The teller answers as Offer does. */
  ghost predicate Serves(zones: map<string, Grid>, teller: Teller)
    requires AllRegular(zones)
  {
    forall k, b, d {:trigger Offer(zones, k, b, d)} :: teller(k, b, d) == Offer(zones, k, b, d)
  }

  ghost function BookOf(store: Store.Store): Book
    reads store
  {
    Book(store.tables, store.history, store.pressure)
  }

  method Submit(zones: map<string, Grid>, store: Store.Store, ghost teller: Teller, b: Batch, d: Disk) returns (error: Option<Error>)
    requires AllRegular(zones) && !store.readOnly && Serves(zones, teller)
    modifies store
    ensures (BookOf(store), error) == teller(old(BookOf(store)), b, d)
  {
    ghost var k := BookOf(store);
    assert teller(k, b, d) == Offer(zones, k, b, d);
    var r := store.Ingest(zones, b, d.overBudget, d.full);
    error := if r.Err? then Some(r.error) else None;
  }

  datatype Turn = Turn(desk: Desk, book: Book, error: Option<Error>)

  ghost function Settle(desk: Desk, offer: (Book, Option<Error>)): Turn {
    Turn(if offer.1.None? then desk else RolledBack(desk.status, offer.1.value), offer.0, offer.1)
  }

  /** Offer the batch; under storage pressure offer its compact form; forget the baseline
      if nothing was committed. */
  ghost function Committed(n: Naming, teller: Teller, desk: Desk, b: Batch, k: Book, first: Disk, second: Disk): Turn {
    var offer := teller(k, b.(status := Some(desk.status)), first);
    if offer.1 == Some(StorageLimit) && Compacted(n, b).Some? then
      var status := CompactStatus(desk.status, b);
      Settle(desk.(status := status), teller(offer.0, Compacted(n, b).value.(status := Some(status)), second))
    else Settle(desk, offer)
  }

  /** One turn: measure and commit. */
  ghost function Turned(n: Naming, teller: Teller, c: Config, desk: Desk, k: Book, r: Reading, first: Disk, second: Disk): Turn
    requires Readable(r)
  {
    Committed(n, teller, DeskAfterReading(n, c, desk, r), BatchOf(n, c, desk, r), k, first, second)
  }

  method CountAttributed(ds: seq<Delta>) returns (count: nat)
    ensures count == Attributed(ds)
  {
    count := 0;
    for i := 0 to |ds|
      invariant count + Attributed(ds[i..]) == Attributed(ds)
    {
      assert ds[i..][0] == ds[i] && ds[i..][1..] == ds[i + 1..];
      if ds[i].dims != NO_ATTRIBUTION {
        count := count + 1;
      }
    }
    assert ds[|ds|..] == [];
  }

  class CollectionSource {
    const config: Config
    const tracker: CounterTracker
    var status: Status

    constructor (config: Config, stored: Status)
      ensures this.config == config && fresh(tracker) && Memory() == Desk(FORGOTTEN, None, stored)
    {
      this.config := config;
      tracker := new CounterTracker();
      status := stored;
    }

    function Memory(): Desk
      reads this, tracker
    {
      Desk(tracker.State(), tracker.total, status)
    }

    /** Feed a reading to the tracker. */
    method Measure(n: Naming, r: Reading) returns (y: Watched, events: seq<Event>)
      requires r.Counted? && Readable(r)
      modifies tracker
      ensures y == Yield(n, config, old(Memory()), r)
      ensures events == if config.kind == "mihomo" then EventsOf(n, old(Memory()).tracked, PollOf(config, r), r.keys) else []
      ensures tracker.State() == Tracked(r.now, r.values)
      ensures tracker.total == if config.kind == "mihomo" then r.totals else old(tracker.total)
    {
      var p := PollOf(config, r);
      var deltas, coverage, resets, mismatch;
      if config.kind == "mihomo" {
        deltas, events, coverage, resets, mismatch := tracker.ObserveConnections(n, p, r.keys, r.totals);
      } else {
        deltas, events, coverage, resets := tracker.Observe(n, p, r.keys);
        events, mismatch := [], false;
      }
      y := Watched(deltas, coverage, resets, mismatch);
    }

    /** Measure a reading, or forget the baseline, and note what became of it. */
    method Take(n: Naming, r: Reading) returns (batch: Batch)
      requires Readable(r)
      modifies this`status, tracker
      ensures batch == BatchOf(n, config, old(Memory()), r)
      ensures Memory() == DeskAfterReading(n, config, old(Memory()), r)
    {
      batch := EmptyBatch(config, r.now);
      if r.Unavailable? {
        status := status.(gapCount := status.gapCount + if status.state != SourceDown then 1 else 0,
                          state := SourceDown, message := Told(r.message));
        tracker.Reset();
        return;
      }
      var gaps: nat := Gap(config, tracker.State(), r.now);
      var y, events := Measure(n, r);
      if y.mismatch {
        gaps := gaps + 1;
      }
      batch := batch.(deltas := y.deltas, events := events, coverageStart := y.coverage,
                      checkpoint := Some(Checkpoint("counters", config.checkpointText(r.now, |r.values|), true, r.now)));
      status := Noted(status, gaps, y, r.dropped);
    }

    /** Send the compact form, and own up to what it leaves out. */
    method SubmitCompact(zones: map<string, Grid>, store: Store.Store, ghost teller: Teller, batch: Batch, compact: Batch, d: Disk) returns (error: Option<Error>)
      requires AllRegular(zones) && !store.readOnly && Serves(zones, teller)
      modifies this`status, store
      ensures status == CompactStatus(old(status), batch)
      ensures (BookOf(store), error) == teller(old(BookOf(store)), compact.(status := Some(status)), d)
    {
      var lost := CountAttributed(batch.deltas);
      status := status.(state := UnderPressure, message := CompactOnly, droppedEvents := status.droppedEvents + |batch.events| + lost);
      error := Submit(zones, store, teller, compact.(status := Some(status)), d);
    }

    /** Forget the baseline after a failed commit. */
    method RollBack(e: Error)
      modifies this`status, tracker
      ensures Memory() == RolledBack(old(status), e)
    {
      tracker.Reset();
      status := status.(gapCount := status.gapCount + 1);
      if e == StorageLimit {
        status := status.(state := UnderPressure, message := BudgetReached);
      }
    }

    method Commit(n: Naming, zones: map<string, Grid>, store: Store.Store, ghost teller: Teller, batch: Batch, first: Disk, second: Disk) returns (error: Option<Error>)
      requires AllRegular(zones) && !store.readOnly && Serves(zones, teller)
      modifies this`status, tracker, store
      ensures Turn(Memory(), BookOf(store), error) ==
              Committed(n, teller, old(Memory()), batch, old(BookOf(store)), first, second)
    {
      error := Submit(zones, store, teller, batch.(status := Some(status)), first);
      if error == Some(StorageLimit) {
        var compact := CompactBatch(n, batch);
        if compact.Some? {
          error := SubmitCompact(zones, store, teller, batch, compact.value, second);
        }
      }
      if error.Some? {
        RollBack(error.value);
      }
    }

    /** One poll: measure, commit, and under storage pressure commit the compact form. */
    method Poll(n: Naming, zones: map<string, Grid>, store: Store.Store, ghost teller: Teller, r: Reading, first: Disk, second: Disk) returns (error: Option<Error>)
      requires AllRegular(zones) && Readable(r) && !store.readOnly && Serves(zones, teller)
      modifies this`status, tracker, store
      ensures Turn(Memory(), BookOf(store), error) ==
              Turned(n, teller, config, old(Memory()), old(BookOf(store)), r, first, second)
    {
      var batch := Take(n, r);
      error := Commit(n, zones, store, teller, batch, first, second);
    }
  }
}
