/** From the wire to the table: over whole runs of a collector, whatever fails on the way, the
    ledger never holds more bytes of a source than truly passed while it was being watched,
    and what the collector does to the ledger is a run of the ledger. */
module CollectorRuns {
  import opened Wrappers
  import opened Calendar
  import opened Ledger
  import opened History
  import opened Rollup
  import opened Replay
  import opened SourceId
  import opened Counters
  import opened CounterRuns
  import opened Compact
  import opened Collector

  // ---------- what one batch can add ----------

  /** A question about all bytes of a source in one direction. */
  ghost predicate AsksBytes(f: Filter, id: string, w: Way) {
    f.column == (if w.Upload? then Up else Down) && forall d :: f.keep(id, d)
  }

  lemma {:induction false} TotalConcat(a: seq<Observation>, b: seq<Observation>, f: Filter)
    ensures Total(a + b, f) == Total(a, f) + Total(b, f)
  {
    if b == [] {
      assert a + b == a;
    } else {
      assert (a + b)[..|a + b| - 1] == a + b[..|b| - 1];
      TotalConcat(a, b[..|b| - 1], f);
    }
  }

  lemma TotalAppend(h: seq<Observation>, o: Observation, f: Filter)
    ensures Total(h + [o], f) == Total(h, f) + if f.keep(o.source, o.dims) then Whole(o, f) else 0
  {
    assert (h + [o])[..|h|] == h;
  }

  lemma {:induction false} EventsAddNoBytes(days: Grid, tx: Tx, id: string, events: seq<Event>, f: Filter)
    requires Regular(days) && AddEvents(days, tx, id, events).Ok? && !f.column.Events?
    ensures Total(AddEvents(days, tx, id, events).value.accepted, f) == Total(tx.accepted, f)
    decreases |events|
  {
    if events != [] {
      var e := events[0];
      TotalAppend(tx.accepted, EventSeen(id, e.id, Normalize(e.dims), e.at, if e.count == 0 then 1 else e.count), f);
      EventsAddNoBytes(days, AddEvent(days, tx, id, e).value, id, events[1..], f);
    }
  }

  /** A history that may have taken up a delta. */
  predicate MayTake(h: seq<Observation>, h': seq<Observation>, id: string, d: Delta) {
    || h' == h
    || h' == h + [IntervalSeen(id, d.id, Normalize(d.dims), d.start, d.end, d.up, d.down)]
    || h' == h + [DayImported(id, d.id, Normalize(d.dims), d.start, d.end, d.up, d.down)]
  }

  lemma DeltaMayBeTaken(days: Grid, tx: Tx, id: string, d: Delta)
    requires Regular(days) && id in tx.tables.sources && AddDelta(days, tx, id, d).Ok?
    ensures ValidDelta(d) && MayTake(tx.accepted, AddDelta(days, tx, id, d).value.accepted, id, d)
    ensures id in AddDelta(days, tx, id, d).value.tables.sources
  {}

  lemma TakenBytes(h: seq<Observation>, h': seq<Observation>, id: string, d: Delta, f: Filter, w: Way)
    requires ValidDelta(d) && MayTake(h, h', id, d) && AsksBytes(f, id, w)
    ensures 0 <= Bytes(d, w) && Total(h', f) <= Total(h, f) + Bytes(d, w)
  {
    TotalAppend(h, IntervalSeen(id, d.id, Normalize(d.dims), d.start, d.end, d.up, d.down), f);
    TotalAppend(h, DayImported(id, d.id, Normalize(d.dims), d.start, d.end, d.up, d.down), f);
  }

  lemma {:induction false} DeltasAddTheirBytes(days: Grid, tx: Tx, id: string, ds: seq<Delta>, f: Filter, w: Way)
    requires Regular(days) && id in tx.tables.sources && AddDeltas(days, tx, id, ds).Ok? && AsksBytes(f, id, w)
    ensures 0 <= SumBytes(ds, w)
    ensures Total(AddDeltas(days, tx, id, ds).value.accepted, f) <= Total(tx.accepted, f) + SumBytes(ds, w)
    decreases |ds|
  {
    if ds != [] {
      var next := AddDelta(days, tx, id, ds[0]).value;
      DeltaMayBeTaken(days, tx, id, ds[0]);
      TakenBytes(tx.accepted, next.accepted, id, ds[0], f, w);
      DeltasAddTheirBytes(days, next, id, ds[1..], f, w);
    }
  }

  lemma TransactBytes(days: Grid, t: Tables, b: Batch, f: Filter, w: Way)
    requires Regular(days) && Transact(days, t, b).Ok? && AsksBytes(f, b.sourceId, w)
    ensures Total(Transact(days, t, b).value.accepted, f) <= SumBytes(b.deltas, w)
  {
    var start := Tx(Bind(t, b).value, 0, []);
    EventsAddNoBytes(days, start, b.sourceId, b.events, f);
    DeltasAddTheirBytes(days, AddEvents(days, start, b.sourceId, b.events).value, b.sourceId, b.deltas, f, w);
    FinishFrame(days, Observe(days, t, b).value, b, DropsOf(t, b.sourceId));
  }

  /** A refused offer leaves the ledger as it was; an accepted one adds at most its bytes. */
  lemma OfferBytes(zones: map<string, Grid>, k: Book, b: Batch, d: Disk, f: Filter, w: Way)
    requires AllRegular(zones) && AsksBytes(f, b.sourceId, w)
    ensures var o := Offer(zones, k, b, d);
            if o.1.Some? then o.0.tables == k.tables && o.0.history == k.history
            else Total(o.0.history, f) <= Total(k.history, f) + SumBytes(b.deltas, w)
  {
    var storage := Storage(k.pressure, d.overBudget, d.full);
    if Ledger.Ingest(zones, k.tables, b, storage).Ok? {
      TransactBytes(zones[ZoneName(b)], k.tables, b, f, w);
      TotalConcat(k.history, Ledger.Ingest(zones, k.tables, b, storage).value.accepted, f);
    }
  }

  lemma TellerBytes(zones: map<string, Grid>, teller: Teller, k: Book, b: Batch, d: Disk, f: Filter, w: Way)
    requires AllRegular(zones) && Serves(zones, teller) && AsksBytes(f, b.sourceId, w)
    ensures var o := teller(k, b, d);
            if o.1.Some? then o.0.tables == k.tables && o.0.history == k.history
            else Total(o.0.history, f) <= Total(k.history, f) + SumBytes(b.deltas, w)
  {
    assert teller(k, b, d) == Offer(zones, k, b, d);
    OfferBytes(zones, k, b, d, f, w);
  }

  /** Whichever way a commit goes, directly, by the compact form or not at all, each
      measured byte enters the ledger at most once, and nothing does when it fails. */
  lemma CommitCountsOnce(n: Naming, zones: map<string, Grid>, teller: Teller, desk: Desk, b: Batch, k: Book, first: Disk, second: Disk, f: Filter, w: Way)
    requires AllRegular(zones) && Serves(zones, teller) && AsksBytes(f, b.sourceId, w)
    ensures var turn := Committed(n, teller, desk, b, k, first, second);
            && (turn.error.Some? ==>
                  turn.book.tables == k.tables && turn.book.history == k.history && turn.desk.tracked == FORGOTTEN && turn.desk.total.None?)
            && (turn.error.None? ==>
                  && Total(turn.book.history, f) <= Total(k.history, f) + SumBytes(b.deltas, w)
                  && turn.desk.tracked == desk.tracked && turn.desk.total == desk.total)
  {
    var sent := b.(status := Some(desk.status));
    TellerBytes(zones, teller, k, sent, first, f, w);
    if Compacted(n, b).Some? {
      var again := Compacted(n, b).value.(status := Some(CompactStatus(desk.status, b)));
      var k' := teller(k, sent, first).0;
      CompactKeepsBytes(n, b, w);
      TellerBytes(zones, teller, k', again, second, f, w);
    }
  }

  // ---------- runs ----------

  /** Something happens: a poll, a restart of the collector, or a retention pass. Beside it
      stands what really passed since the last act, by counter and in aggregate. */
  datatype Act =
    | PollAct(reading: Reading, traffic: string -> seq<Activity>, aggregate: seq<Activity>, first: Disk, second: Disk)
    | RestartAct(stored: Status, traffic: string -> seq<Activity>, aggregate: seq<Activity>)
    | RetainAct(op: Op)

  datatype Scene = Scene(desk: Desk, book: Book)

  datatype Stage = Stage(naming: Naming, zones: map<string, Grid>, teller: Teller, config: Config)

  ghost predicate Ready(g: Stage) { AllRegular(g.zones) && Serves(g.zones, g.teller) }

  ghost predicate Fair(a: Act) { a.PollAct? ==> Readable(a.reading) }

  ghost function TurnOf(g: Stage, s: Scene, a: Act): Turn
    requires a.PollAct? && Fair(a)
  {
    Turned(g.naming, g.teller, g.config, s.desk, s.book, a.reading, a.first, a.second)
  }

  ghost function Do(g: Stage, s: Scene, a: Act): Scene
    requires Ready(g) && Fair(a)
  {
    match a
    case PollAct(_, _, _, _, _) => Scene(TurnOf(g, s, a).desk, TurnOf(g, s, a).book)
    case RestartAct(stored, _, _) => s.(desk := Desk(FORGOTTEN, None, stored))
    case RetainAct(op) =>
      s.(book := s.book.(tables := Retain(g.zones, s.book.tables, op)))
  }

  ghost predicate AllFair(acts: seq<Act>) { forall i :: 0 <= i < |acts| ==> Fair(acts[i]) }

  ghost function Play(g: Stage, acts: seq<Act>): Scene
    requires Ready(g) && AllFair(acts)
  {
    if acts == [] then Scene(Desk(FORGOTTEN, None, NEW_STATUS), Book(EMPTY_TABLES, [], false))
    else Do(g, Play(g, acts[..|acts| - 1]), acts[|acts| - 1])
  }

  /** The bytes of the batches measured, committed or not. */
  ghost function MeasuredBytes(g: Stage, acts: seq<Act>, w: Way): int
    requires Ready(g) && AllFair(acts)
  {
    if acts == [] then 0
    else
      var before := acts[..|acts| - 1];
      var a := acts[|acts| - 1];
      MeasuredBytes(g, before, w) +
      if a.PollAct? then SumBytes(BatchOf(g.naming, g.config, Play(g, before).desk, a.reading).deltas, w) else 0
  }

  lemma BatchNonNegative(n: Naming, c: Config, desk: Desk, r: Reading, w: Way)
    requires Readable(r)
    ensures 0 <= SumBytes(BatchOf(n, c, desk, r).deltas, w)
  {
    if r.Counted? {
      var p := PollOf(c, r);
      WatchedBytes(n, desk.tracked, p, r.keys, desk.total, r.totals, w);
      WatchedBytes(n, desk.tracked, p, r.keys, None, None, w);
      if !Continuous(desk.tracked, p) { GapMeasuresNothing(n, desk.tracked, p, r.keys); }
    }
  }

  /** The ledger holds at most what was measured, over any run of polls, failures, compact
      retries, restarts and retention passes. */
  lemma {:induction false} LedgerWithinMeasured(g: Stage, acts: seq<Act>, f: Filter, w: Way)
    requires Ready(g) && AllFair(acts) && AsksBytes(f, g.config.id, w)
    ensures Total(Play(g, acts).book.history, f) <= MeasuredBytes(g, acts, w)
  {
    if acts != [] {
      var s := Play(g, acts[..|acts| - 1]);
      var a := acts[|acts| - 1];
      LedgerWithinMeasured(g, acts[..|acts| - 1], f, w);
      if a.PollAct? {
        BatchNonNegative(g.naming, g.config, s.desk, a.reading, w);
        CommitCountsOnce(g.naming, g.zones, g.teller, DeskAfterReading(g.naming, g.config, s.desk, a.reading),
                         BatchOf(g.naming, g.config, s.desk, a.reading), s.book, a.first, a.second, f, w);
      }
    }
  }

  // ---------- against what really passed ----------

  /** The acts as one counter lives through them. */
  ghost function Lived(g: Stage, acts: seq<Act>, key: string): seq<Stretch>
    requires Ready(g) && AllFair(acts)
  {
    if acts == [] then []
    else
      var before := acts[..|acts| - 1];
      match acts[|acts| - 1]
      case PollAct(r, traffic, _, _, _) =>
        var round := if r.Counted? then Read(PollOf(g.config, r), TurnOf(g, Play(g, before), acts[|acts| - 1]).error.None?) else Unread;
        Lived(g, before, key) + [Stretch(traffic(key), round)]
      case RestartAct(_, traffic, _) => Lived(g, before, key) + [Stretch(traffic(key), Unread)]
      case RetainAct(_) => Lived(g, before, key)
  }

  /** The true value of the aggregate counter. */
  function AggregateTruth(acts: seq<Act>, w: Way): nat {
    if acts == [] then 0
    else
      var before := AggregateTruth(acts[..|acts| - 1], w);
      var a := acts[|acts| - 1];
      if a.RetainAct? then before else After(before, a.aggregate, w)
  }

  /** Every reading reads the real counters. */
  ghost predicate TrueReadings(g: Stage, acts: seq<Act>)
    requires Ready(g) && AllFair(acts)
  {
    && (forall key :: Honest(Lived(g, acts, key), key))
    && (acts == [] ||
        (TrueReadings(g, acts[..|acts| - 1]) &&
         var a := acts[|acts| - 1];
         (a.PollAct? && a.reading.Counted? && a.reading.totals.Some? ==> TrueTotals(a.reading.totals.value, acts))))
  }

  predicate TrueTotals(t: Totals, acts: seq<Act>) {
    t.up == AggregateTruth(acts, Upload) && t.down == AggregateTruth(acts, Download)
  }

  function PassedFor(traffic: string -> seq<Activity>, keys: seq<string>, w: Way): nat {
    if keys == [] then 0 else Passed(traffic(keys[0]), w) + PassedFor(traffic, keys[1..], w)
  }

  /** What truly passed between two polls that follow one another: through the aggregate
      where both polls read it, through the counters listed otherwise. */
  function PassedBetween(c: Config, before: Option<Totals>, a: Act, w: Way): nat
    requires a.PollAct? && a.reading.Counted?
  {
    if c.kind == "mihomo" && before.Some? && a.reading.totals.Some? then Passed(a.aggregate, w)
    else PassedFor(a.traffic, a.reading.keys, w)
  }

  /** All that truly passed while the source was being watched. */
  ghost function PassedWatched(g: Stage, acts: seq<Act>, w: Way): nat
    requires Ready(g) && AllFair(acts)
  {
    if acts == [] then 0
    else
      var before := acts[..|acts| - 1];
      var a := acts[|acts| - 1];
      var desk := Play(g, before).desk;
      PassedWatched(g, before, w) +
      if a.PollAct? && a.reading.Counted? && Continuous(desk.tracked, PollOf(g.config, a.reading))
      then PassedBetween(g.config, desk.total, a, w) else 0
  }

  lemma TurnTracks(g: Stage, s: Scene, a: Act)
    requires Ready(g) && Fair(a) && a.PollAct?
    ensures var turn := TurnOf(g, s, a);
            var after := DeskAfterReading(g.naming, g.config, s.desk, a.reading);
            && turn.desk.tracked == (if turn.error.None? then after.tracked else FORGOTTEN)
            && turn.desk.total == if turn.error.None? then after.total else None
  {}

  /** The tracker stands where each single counter's life puts it. */
  lemma {:induction false} TrackerIsState(g: Stage, acts: seq<Act>, key: string)
    requires Ready(g) && AllFair(acts)
    ensures StateAfter(Lived(g, acts, key)) == Play(g, acts).desk.tracked
  {
    if acts != [] {
      var before := acts[..|acts| - 1];
      var a := acts[|acts| - 1];
      TrackerIsState(g, before, key);
      if a.PollAct? { TurnTracks(g, Play(g, before), a); }
      if !a.RetainAct? {
        assert Lived(g, acts, key)[..|Lived(g, acts, key)| - 1] == Lived(g, before, key);
      }
    }
  }

  lemma {:induction false} AggregateRemembered(g: Stage, acts: seq<Act>)
    requires Ready(g) && AllFair(acts) && TrueReadings(g, acts) && g.config.kind == "mihomo"
    ensures Play(g, acts).desk.total.Some? ==> TrueTotals(Play(g, acts).desk.total.value, acts)
  {
    if acts != [] {
      var before := acts[..|acts| - 1];
      var a := acts[|acts| - 1];
      AggregateRemembered(g, before);
      if a.PollAct? { TurnTracks(g, Play(g, before), a); }
    }
  }

  lemma {:induction false} SumOverKeys(n: Naming, t: Tracked, p: Poll, committed: bool, keys: seq<string>, traffic: string -> seq<Activity>, w: Way)
    requires Continuous(t, p) && forall k :: k in keys ==> k in p.values && Measured(n, t, Read(p, committed), k, w) <= Passed(traffic(k), w)
    ensures SumBytes(DeltasOf(n, t, p, keys), w) <= PassedFor(traffic, keys, w)
  {
    if keys != [] {
      assert keys[0] in keys && forall k :: k in keys[1..] ==> k in keys;
      SumOverKeys(n, t, p, committed, keys[1..], traffic, w);
      var o := OutcomeOf(n, t, p, keys[0]);
      var rest := DeltasOf(n, t, p, keys[1..]);
      if o.Grew? { assert ([o.delta] + rest)[1..] == rest; } else { assert [] + rest == rest; }
    }
  }

  /** One key of one poll in a run. */
  lemma KeyWithinTraffic(g: Stage, acts: seq<Act>, key: string, w: Way)
    requires Ready(g) && AllFair(acts) && TrueReadings(g, acts) && acts != []
    requires acts[|acts| - 1].PollAct? && acts[|acts| - 1].reading.Counted?
    ensures var a := acts[|acts| - 1];
            var t := Play(g, acts[..|acts| - 1]).desk.tracked;
            var p := PollOf(g.config, a.reading);
            Continuous(t, p) ==>
              Measured(g.naming, t, Read(p, TurnOf(g, Play(g, acts[..|acts| - 1]), a).error.None?), key, w) <= Passed(a.traffic(key), w)
  {
    var before := acts[..|acts| - 1];
    var lived := Lived(g, acts, key);
    assert Honest(lived, key);
    assert lived[..|lived| - 1] == Lived(g, before, key);
    TrackerIsState(g, before, key);
    RoundWithinPassed(g.naming, lived, key, w);
  }

  lemma KeysWithinTraffic(g: Stage, acts: seq<Act>, w: Way)
    requires Ready(g) && AllFair(acts) && TrueReadings(g, acts) && acts != []
    requires acts[|acts| - 1].PollAct? && acts[|acts| - 1].reading.Counted?
    ensures var r := acts[|acts| - 1].reading;
            var t := Play(g, acts[..|acts| - 1]).desk.tracked;
            Continuous(t, PollOf(g.config, r)) ==>
              SumBytes(DeltasOf(g.naming, t, PollOf(g.config, r), r.keys), w) <= PassedFor(acts[|acts| - 1].traffic, r.keys, w)
  {
    var a := acts[|acts| - 1];
    var s := Play(g, acts[..|acts| - 1]);
    var p := PollOf(g.config, a.reading);
    if Continuous(s.desk.tracked, p) {
      var committed := TurnOf(g, s, a).error.None?;
      forall k | k in a.reading.keys
        ensures Measured(g.naming, s.desk.tracked, Read(p, committed), k, w) <= Passed(a.traffic(k), w)
      {
        KeyWithinTraffic(g, acts, k, w);
      }
      SumOverKeys(g.naming, s.desk.tracked, p, committed, a.reading.keys, a.traffic, w);
    }
  }

  lemma AggregateWithinTraffic(acts: seq<Act>, before: Totals, now: Totals, w: Way)
    requires acts != [] && !acts[|acts| - 1].RetainAct?
    requires TrueTotals(before, acts[..|acts| - 1]) && TrueTotals(now, acts)
    ensures (if w.Upload? then now.up - before.up else now.down - before.down) <= Passed(acts[|acts| - 1].aggregate, w)
  {
    CounterBounds(AggregateTruth(acts[..|acts| - 1], w), acts[|acts| - 1].aggregate, w);
  }

  lemma TurnWithinTraffic(g: Stage, acts: seq<Act>, w: Way)
    requires Ready(g) && AllFair(acts) && TrueReadings(g, acts) && acts != []
    requires acts[|acts| - 1].PollAct? && acts[|acts| - 1].reading.Counted?
    ensures var a := acts[|acts| - 1];
            var desk := Play(g, acts[..|acts| - 1]).desk;
            SumBytes(BatchOf(g.naming, g.config, desk, a.reading).deltas, w) <=
            if Continuous(desk.tracked, PollOf(g.config, a.reading)) then PassedBetween(g.config, desk.total, a, w) else 0
  {
    var r := acts[|acts| - 1].reading;
    var desk := Play(g, acts[..|acts| - 1]).desk;
    var p := PollOf(g.config, r);
    KeysWithinTraffic(g, acts, w);
    WatchedBytes(g.naming, desk.tracked, p, r.keys, desk.total, r.totals, w);
    if !Continuous(desk.tracked, p) { GapMeasuresNothing(g.naming, desk.tracked, p, r.keys); }
    if g.config.kind == "mihomo" && r.totals.Some? && desk.total.Some? {
      AggregateRemembered(g, acts[..|acts| - 1]);
      AggregateWithinTraffic(acts, desk.total.value, r.totals.value, w);
    }
  }

  lemma {:induction false} MeasuredWithinTraffic(g: Stage, acts: seq<Act>, w: Way)
    requires Ready(g) && AllFair(acts) && TrueReadings(g, acts)
    ensures MeasuredBytes(g, acts, w) <= PassedWatched(g, acts, w)
  {
    if acts != [] {
      MeasuredWithinTraffic(g, acts[..|acts| - 1], w);
      var a := acts[|acts| - 1];
      if a.PollAct? && a.reading.Counted? { TurnWithinTraffic(g, acts, w); }
    }
  }

  // ---------- a played run is a run of the ledger ----------

  /** The act happens past the epoch, and retention counts back to instants past it. */
  ghost predicate ModernAct(s: Scene, a: Act) {
    match a
    case PollAct(r, _, _, _, _) => 0 <= r.now
    case RestartAct(_, _, _) => true
    case RetainAct(op) => op.IngestOp? || Modern(s.book.tables, op)
  }

  ghost predicate ModernPlay(g: Stage, acts: seq<Act>)
    requires Ready(g) && AllFair(acts)
  {
    forall i :: 0 <= i < |acts| ==> ModernAct(Play(g, acts[..i]), acts[i])
  }

  ghost predicate Keeps(zones: map<string, Grid>, ops: seq<Op>, k: Book, modern: bool)
    requires AllRegular(zones)
  {
    Run(zones, ops) == World(k.tables, k.history) && (modern ==> ModernRun(zones, ops))
  }

  /** One more operation. */
  lemma OpKeeps(zones: map<string, Grid>, ops: seq<Op>, op: Op, k: Book, k': Book, modern: bool)
    requires AllRegular(zones) && Keeps(zones, ops, k, modern) && (modern ==> Modern(k.tables, op))
    requires Apply(zones, World(k.tables, k.history), op) == World(k'.tables, k'.history)
    ensures Keeps(zones, ops + [op], k', modern)
  {
    var more := ops + [op];
    assert more[..|ops|] == ops;
    forall i | modern && 0 <= i < |more| ensures Modern(Run(zones, more[..i]).tables, more[i]) {
      assert more[..i] == ops[..i];
      if i == |ops| { assert ops[..i] == ops; }
    }
  }

  ghost function OpOf(k: Book, b: Batch, d: Disk): Op { IngestOp(b, Storage(k.pressure, d.overBudget, d.full)) }

  lemma TellerKeeps(zones: map<string, Grid>, teller: Teller, k: Book, b: Batch, d: Disk, ops: seq<Op>, modern: bool)
    requires AllRegular(zones) && Serves(zones, teller) && Keeps(zones, ops, k, modern) && (modern ==> 0 <= b.at)
    ensures Keeps(zones, ops + [OpOf(k, b, d)], teller(k, b, d).0, modern)
    ensures teller(k, b, d).1.None? ==> Ingest(zones, Run(zones, ops).tables, b, OpOf(k, b, d).storage).Ok?
  {
    assert teller(k, b, d) == Offer(zones, k, b, d);
    OpKeeps(zones, ops, OpOf(k, b, d), k, Offer(zones, k, b, d).0, modern);
  }

  /** The batch a committed turn went through with. */
  ghost function Sent(n: Naming, teller: Teller, desk: Desk, b: Batch, k: Book, first: Disk): Batch {
    var sent := b.(status := Some(desk.status));
    if teller(k, sent, first).1 == Some(StorageLimit) && Compacted(n, b).Some?
    then Compacted(n, b).value.(status := Some(CompactStatus(desk.status, b))) else sent
  }

  ghost predicate EndsWith(zones: map<string, Grid>, ops: seq<Op>, b: Batch)
    requires AllRegular(zones)
  {
    && ops != [] && ops[|ops| - 1].IngestOp? && ops[|ops| - 1].batch == b
    && Ingest(zones, Run(zones, ops[..|ops| - 1]).tables, b, ops[|ops| - 1].storage).Ok?
  }

  lemma TwoOffersKeep(zones: map<string, Grid>, teller: Teller, k: Book, b: Batch, d: Disk, k': Book, b': Batch, d': Disk, ops: seq<Op>, modern: bool)
    requires AllRegular(zones) && Serves(zones, teller) && Keeps(zones, ops, k, modern) && (modern ==> 0 <= b.at && 0 <= b'.at)
    requires k' == teller(k, b, d).0
    ensures var all := ops + [OpOf(k, b, d), OpOf(k', b', d')];
            Keeps(zones, all, teller(k', b', d').0, modern) && (teller(k', b', d').1.None? ==> EndsWith(zones, all, b'))
  {
    TellerKeeps(zones, teller, k, b, d, ops, modern);
    TellerKeeps(zones, teller, k', b', d', ops + [OpOf(k, b, d)], modern);
    var all := ops + [OpOf(k, b, d), OpOf(k', b', d')];
    assert all == (ops + [OpOf(k, b, d)]) + [OpOf(k', b', d')];
    assert all[..|all| - 1] == ops + [OpOf(k, b, d)];
  }

  lemma CommitKeeps(n: Naming, zones: map<string, Grid>, teller: Teller, desk: Desk, b: Batch, k: Book, first: Disk, second: Disk, ops: seq<Op>, modern: bool)
      returns (all: seq<Op>)
    requires AllRegular(zones) && Serves(zones, teller) && Keeps(zones, ops, k, modern) && (modern ==> 0 <= b.at)
    ensures var turn := Committed(n, teller, desk, b, k, first, second);
            Keeps(zones, all, turn.book, modern) && (turn.error.None? ==> EndsWith(zones, all, Sent(n, teller, desk, b, k, first)))
    ensures ops <= all
  {
    var sent := b.(status := Some(desk.status));
    var k' := teller(k, sent, first).0;
    if teller(k, sent, first).1 == Some(StorageLimit) && Compacted(n, b).Some? {
      var again := Compacted(n, b).value.(status := Some(CompactStatus(desk.status, b)));
      TwoOffersKeep(zones, teller, k, sent, first, k', again, second, ops, modern);
      all := ops + [OpOf(k, sent, first), OpOf(k', again, second)];
    } else {
      TellerKeeps(zones, teller, k, sent, first, ops, modern);
      all := ops + [OpOf(k, sent, first)];
      assert all[..|ops|] == ops;
    }
  }

  /** The operations a poll comes down to. */
  lemma PollKeeps(g: Stage, s: Scene, a: Act, ops: seq<Op>, modern: bool) returns (all: seq<Op>)
    requires Ready(g) && Fair(a) && a.PollAct? && Keeps(g.zones, ops, s.book, modern) && (modern ==> ModernAct(s, a))
    ensures Keeps(g.zones, all, TurnOf(g, s, a).book, modern) && ops <= all
    ensures TurnOf(g, s, a).error.None? ==>
              EndsWith(g.zones, all, Sent(g.naming, g.teller, DeskAfterReading(g.naming, g.config, s.desk, a.reading),
                                          BatchOf(g.naming, g.config, s.desk, a.reading), s.book, a.first))
  {
    all := CommitKeeps(g.naming, g.zones, g.teller, DeskAfterReading(g.naming, g.config, s.desk, a.reading),
                       BatchOf(g.naming, g.config, s.desk, a.reading), s.book, a.first, a.second, ops, modern);
  }

  lemma ActKeeps(g: Stage, s: Scene, a: Act, ops: seq<Op>, modern: bool) returns (all: seq<Op>)
    requires Ready(g) && Fair(a) && Keeps(g.zones, ops, s.book, modern) && (modern ==> ModernAct(s, a))
    ensures Keeps(g.zones, all, Do(g, s, a).book, modern) && ops <= all
  {
    if a.PollAct? {
      all := PollKeeps(g, s, a, ops, modern);
    } else if a.RetainAct? && !a.op.IngestOp? {
      all := ops + [a.op];
      OpKeeps(g.zones, ops, a.op, s.book, Do(g, s, a).book, modern);
    } else {
      all := ops;
    }
  }

  lemma ModernFront(g: Stage, acts: seq<Act>)
    requires Ready(g) && AllFair(acts) && ModernPlay(g, acts) && acts != []
    ensures ModernPlay(g, acts[..|acts| - 1]) && ModernAct(Play(g, acts[..|acts| - 1]), acts[|acts| - 1])
  {
    var before := acts[..|acts| - 1];
    forall j | 0 <= j < |before| ensures ModernAct(Play(g, before[..j]), before[j]) {
      assert before[..j] == acts[..j];
    }
  }

  lemma StepKeeps(g: Stage, acts: seq<Act>, ops: seq<Op>, modern: bool) returns (all: seq<Op>)
    requires Ready(g) && AllFair(acts) && acts != [] && Keeps(g.zones, ops, Play(g, acts[..|acts| - 1]).book, modern)
    requires modern ==> ModernAct(Play(g, acts[..|acts| - 1]), acts[|acts| - 1])
    ensures Keeps(g.zones, all, Play(g, acts).book, modern) && ops <= all
  {
    all := ActKeeps(g, Play(g, acts[..|acts| - 1]), acts[|acts| - 1], ops, modern);
  }

  /** From any moment on, a played run goes on as a run of the ledger does. */
  lemma {:induction false} PlayGoesOn(g: Stage, acts: seq<Act>, i: nat, ops: seq<Op>, modern: bool) returns (all: seq<Op>)
    requires Ready(g) && AllFair(acts) && i <= |acts| && (modern ==> ModernPlay(g, acts))
    requires Keeps(g.zones, ops, Play(g, acts[..i]).book, modern)
    ensures Keeps(g.zones, all, Play(g, acts).book, modern) && ops <= all
    decreases |acts|
  {
    if i == |acts| {
      assert acts[..i] == acts;
      all := ops;
    } else {
      assert acts[..|acts| - 1][..i] == acts[..i];
      if modern { ModernFront(g, acts); }
      all := PlayGoesOn(g, acts[..|acts| - 1], i, ops, modern);
      all := StepKeeps(g, acts, all, modern);
    }
  }

  lemma PlayIsRun(g: Stage, acts: seq<Act>) returns (ops: seq<Op>)
    requires Ready(g) && AllFair(acts)
    ensures Run(g.zones, ops) == World(Play(g, acts).book.tables, Play(g, acts).book.history)
    ensures ModernPlay(g, acts) ==> ModernRun(g.zones, ops)
  {
    ops := PlayGoesOn(g, acts, 0, [], ModernPlay(g, acts));
  }

  /** From the wire to the table: over any run of one source's collector, with failing
      reads, refused commits, compact retries, restarts and retention passes, and with
      counters that may restart at any time, the rows of the ledger sum to no more than
      what truly passed while the source was being watched. */
  lemma TableWithinTraffic(g: Stage, acts: seq<Act>, days: Grid, f: Filter, w: Way)
    requires Ready(g) && AllFair(acts) && TrueReadings(g, acts) && AsksBytes(f, g.config.id, w)
    requires Regular(days) && Aligned(days, f) && Pinned(g.zones, Play(g, acts).book.tables, days)
    requires Retained(Play(g, acts).book.tables, f)
    requires forall o :: o in Play(g, acts).book.history && f.keep(o.source, o.dims) ==> Covers(f, o)
    ensures SumRows(Play(g, acts).book.tables.metrics, f) <= PassedWatched(g, acts, w)
  {
    var ops := PlayIsRun(g, acts);
    LedgerConserves(g.zones, ops, days, f);
    LedgerWithinMeasured(g, acts, f, w);
    MeasuredWithinTraffic(g, acts, w);
  }
}
