/** Every committed byte is in the table. */
module Exact {
  import opened Wrappers
  import opened Clock
  import opened Calendar
  import opened Ledger
  import opened History
  import opened Rollup
  import opened Replay
  import opened SourceId
  import opened Counters
  import opened Compact
  import opened Collector
  import opened CollectorRuns
  import opened Minting

  // Deduplication merges no two measurements: a committed batch adds all its bytes, over a
  // run the ledger holds exactly what was committed, and where nothing is missed the table
  // shows exactly how far the real counters moved.

  // ---------- one batch ----------

  /** What a poll at now brings into a ledger whose watermark for details is cut. */
  function Brought(now: Time, cut: int, bytes: int): int { if UnixMilli(now) > cut then bytes else 0 }

  /** No stored interval of the source has the identifier of one of these. */
  predicate NoneStored(t: Tables, source: string, ds: seq<Delta>) {
    forall i :: 0 <= i < |ds| ==> DeltaKey(source, ds[i]) !in t.details
  }

  /** The question asks for this way's bytes, of whatever attribution. */
  predicate AsksWay(f: Filter, w: Way) { f.column == if w.Upload? then Up else Down }

  /** The bytes of those intervals that the question keeps, under the attribution they are stored with. */
  function KeptBytes(ds: seq<Delta>, id: string, f: Filter, w: Way): int {
    if ds == [] then 0 else (if f.keep(id, Normalize(ds[0].dims)) then Bytes(ds[0], w) else 0) + KeptBytes(ds[1..], id, f, w)
  }

  lemma {:induction false} KeptAll(ds: seq<Delta>, id: string, f: Filter, w: Way)
    requires AsksBytes(f, id, w)
    ensures KeptBytes(ds, id, f, w) == SumBytes(ds, w)
  {
    if ds != [] {
      KeptAll(ds[1..], id, f, w);
    }
  }

  /** A fresh interval counts with all its bytes, unless it ends below the watermark. */
  lemma FreshDelta(days: Grid, tx: Tx, id: string, d: Delta, f: Filter, w: Way)
    requires Regular(days) && id in tx.tables.sources && AddDelta(days, tx, id, d).Ok? && AsksWay(f, w)
    requires d.granularity == "" && DeltaKey(id, d) !in tx.tables.details
    ensures var tx' := AddDelta(days, tx, id, d).value;
            && Total(tx'.accepted, f) == Total(tx.accepted, f) +
                 Brought(d.end, Cut(tx.tables.detailCutoff), if f.keep(id, Normalize(d.dims)) then Bytes(d, w) else 0)
            && tx'.tables.detailCutoff == tx.tables.detailCutoff
            && forall k :: k in tx'.tables.details ==> k in tx.tables.details || k == DeltaKey(id, d)
  {
    TotalAppend(tx.accepted, IntervalSeen(id, d.id, Normalize(d.dims), d.start, d.end, d.up, d.down), f);
  }

  lemma {:induction false} FreshDeltas(days: Grid, tx: Tx, id: string, ds: seq<Delta>, now: Time, f: Filter, w: Way)
    requires Regular(days) && id in tx.tables.sources && AddDeltas(days, tx, id, ds).Ok? && AsksWay(f, w)
    requires (forall i :: 0 <= i < |ds| ==> ds[i].granularity == "" && ds[i].end == now) && DistinctIds(ds) && NoneStored(tx.tables, id, ds)
    ensures Total(AddDeltas(days, tx, id, ds).value.accepted, f) ==
            Total(tx.accepted, f) + Brought(now, Cut(tx.tables.detailCutoff), KeptBytes(ds, id, f, w))
    decreases |ds|
  {
    if ds != [] {
      var next := AddDelta(days, tx, id, ds[0]).value;
      FreshDelta(days, tx, id, ds[0], f, w);
      forall i | 0 <= i < |ds[1..]| ensures DeltaKey(id, ds[1..][i]) !in next.tables.details {
        assert ds[1..][i] == ds[i + 1];
      }
      FreshDeltas(days, next, id, ds[1..], now, f, w);
    }
  }

  /** Events store no interval. */
  lemma {:induction false} EventsKeepIntervals(days: Grid, tx: Tx, id: string, events: seq<Event>)
    requires Regular(days) && AddEvents(days, tx, id, events).Ok?
    ensures var details := AddEvents(days, tx, id, events).value.tables.details;
            forall k: DetailKey :: k.kind.DeltaDetail? && k in details ==> k in tx.tables.details && details[k] == tx.tables.details[k]
    decreases |events|
  {
    if events != [] {
      EventsKeepIntervals(days, AddEvent(days, tx, id, events[0]).value, id, events[1..]);
    }
  }

  lemma TransactAddsKept(days: Grid, t: Tables, b: Batch, now: Time, f: Filter, w: Way)
    requires Regular(days) && Transact(days, t, b).Ok? && AsksWay(f, w)
    requires forall i :: 0 <= i < |b.deltas| ==> b.deltas[i].granularity == "" && b.deltas[i].end == now
    requires DistinctIds(b.deltas) && NoneStored(t, b.sourceId, b.deltas)
    ensures Total(Transact(days, t, b).value.accepted, f) == Brought(now, Cut(t.detailCutoff), KeptBytes(b.deltas, b.sourceId, f, w))
  {
    var start := Tx(Bind(t, b).value, 0, []);
    var mid := AddEvents(days, start, b.sourceId, b.events).value;
    EventsAddNoBytes(days, start, b.sourceId, b.events, f);
    EventsKeepIntervals(days, start, b.sourceId, b.events);
    EventsFrame(days, start, b.sourceId, b.events);
    FreshDeltas(days, mid, b.sourceId, b.deltas, now, f, w);
    FinishFrame(days, Observe(days, t, b).value, b, DropsOf(t, b.sourceId));
  }

  /** An accepted offer of fresh intervals brings exactly their bytes. */
  lemma OfferAddsKept(zones: map<string, Grid>, k: Book, b: Batch, d: Disk, now: Time, f: Filter, w: Way)
    requires AllRegular(zones) && AsksWay(f, w)
    requires forall i :: 0 <= i < |b.deltas| ==> b.deltas[i].granularity == "" && b.deltas[i].end == now
    requires DistinctIds(b.deltas) && NoneStored(k.tables, b.sourceId, b.deltas)
    ensures var o := Offer(zones, k, b, d);
            if o.1.Some? then o.0.tables == k.tables && o.0.history == k.history
            else Total(o.0.history, f) == Total(k.history, f) + Brought(now, Cut(k.tables.detailCutoff), KeptBytes(b.deltas, b.sourceId, f, w))
  {
    var storage := Storage(k.pressure, d.overBudget, d.full);
    if Ledger.Ingest(zones, k.tables, b, storage).Ok? {
      TransactAddsKept(zones[ZoneName(b)], k.tables, b, now, f, w);
      TotalConcat(k.history, Ledger.Ingest(zones, k.tables, b, storage).value.accepted, f);
    }
  }

  /** Nothing stored for the source was minted at now. */
  ghost predicate Unminted(n: Naming, t: Tables, source: string, now: Time) {
    forall id {:trigger DetailKey(source, id, DeltaDetail)} :: DetailKey(source, id, DeltaDetail) in t.details ==> !MintedAt(n, source, id, now)
  }

  lemma UnmintedIsFresh(n: Naming, t: Tables, source: string, now: Time, ds: seq<Delta>)
    requires Unminted(n, t, source, now) && AllCoined(n, source, now, ds)
    ensures NoneStored(t, source, ds)
  {
    forall i | 0 <= i < |ds| ensures DeltaKey(source, ds[i]) !in t.details {
      assert DeltaKey(source, ds[i]) == DetailKey(source, ds[i].id, DeltaDetail);
    }
  }

  lemma TellerAddsKept(n: Naming, zones: map<string, Grid>, teller: Teller, k: Book, b: Batch, d: Disk, now: Time, f: Filter, w: Way)
    requires AllRegular(zones) && Serves(zones, teller) && AsksWay(f, w)
    requires AllCoined(n, b.sourceId, now, b.deltas) && DistinctIds(b.deltas) && (b.deltas != [] ==> Unminted(n, k.tables, b.sourceId, now))
    ensures var o := teller(k, b, d);
            if o.1.Some? then o.0.tables == k.tables && o.0.history == k.history
            else Total(o.0.history, f) == Total(k.history, f) + Brought(now, Cut(k.tables.detailCutoff), KeptBytes(b.deltas, b.sourceId, f, w))
  {
    if b.deltas != [] { UnmintedIsFresh(n, k.tables, b.sourceId, now, b.deltas); }
    assert teller(k, b, d) == Offer(zones, k, b, d);
    OfferAddsKept(zones, k, b, d, now, f, w);
  }

  lemma CommitAddsAll(n: Naming, zones: map<string, Grid>, teller: Teller, desk: Desk, b: Batch, k: Book, first: Disk, second: Disk, now: Time, f: Filter, w: Way)
    requires AllRegular(zones) && Serves(zones, teller) && Injective(n) && AsksBytes(f, b.sourceId, w)
    requires AllEmitted(n, b.sourceId, now, b.deltas) && DistinctIds(b.deltas)
    requires b.deltas != [] ==> Unminted(n, k.tables, b.sourceId, now)
    ensures var turn := Committed(n, teller, desk, b, k, first, second);
            Total(turn.book.history, f) == Total(k.history, f) +
              if turn.error.Some? then 0 else Brought(now, Cut(k.tables.detailCutoff), SumBytes(b.deltas, w))
  {
    var sent := b.(status := Some(desk.status));
    KeptAll(b.deltas, b.sourceId, f, w);
    TellerAddsKept(n, zones, teller, k, sent, first, now, f, w);
    if Compacted(n, b).Some? {
      var again := Compacted(n, b).value.(status := Some(CompactStatus(desk.status, b)));
      CompactKeepsBytes(n, b, w);
      KeptAll(again.deltas, b.sourceId, f, w);
      CompactEmitted(n, b, now);
      if teller(k, sent, first).1.Some? {
        TellerAddsKept(n, zones, teller, teller(k, sent, first).0, again, second, now, f, w);
      }
    }
  }

  /** Whichever way a turn commits, directly or in compact form, its batch adds exactly the
      bytes it measured; a turn that fails adds nothing. */
  lemma TurnAddsAll(n: Naming, zones: map<string, Grid>, teller: Teller, c: Config, desk: Desk, k: Book, r: Reading, first: Disk, second: Disk, f: Filter, w: Way)
    requires AllRegular(zones) && Serves(zones, teller) && Readable(r) && Injective(n) && AsksBytes(f, c.id, w)
    requires r.Counted? ==> Unminted(n, k.tables, c.id, r.now)
    ensures var turn := Turned(n, teller, c, desk, k, r, first, second);
            Total(turn.book.history, f) == Total(k.history, f) +
              if turn.error.Some? then 0 else Brought(r.now, Cut(k.tables.detailCutoff), SumBytes(BatchOf(n, c, desk, r).deltas, w))
  {
    BatchEmitted(n, c, desk, r);
    CommitAddsAll(n, zones, teller, DeskAfterReading(n, c, desk, r), BatchOf(n, c, desk, r), k, first, second, r.now, f, w);
  }

  // ---------- what a run stores and accepts ----------

  /** The instants of the polls that read the counters. */
  function Instants(acts: seq<Act>): set<Time> {
    if acts == [] then {}
    else
      var a := acts[|acts| - 1];
      Instants(acts[..|acts| - 1]) + if a.PollAct? && a.reading.Counted? then {a.reading.now} else {}
  }

  /** No two polls read the counters at the same instant. */
  predicate OwnInstants(acts: seq<Act>) {
    acts == [] ||
    (var a := acts[|acts| - 1];
     OwnInstants(acts[..|acts| - 1]) && (a.PollAct? && a.reading.Counted? ==> a.reading.now !in Instants(acts[..|acts| - 1])))
  }

  /** Every stored interval of the source was minted at a past poll and is stamped with it. */
  ghost predicate Stores(n: Naming, t: Tables, source: string, past: set<Time>) {
    forall id {:trigger DetailKey(source, id, DeltaDetail)} ::
      var k := DetailKey(source, id, DeltaDetail);
      k in t.details ==> exists now :: now in past && MintedAt(n, source, id, now) && t.details[k] == Millis(now)
  }

  /** An accepted interval was minted where it ends; events only come from connections. */
  ghost predicate DatedBy(n: Naming, source: string, connections: bool, o: Observation) {
    if o.IntervalSeen? then o.source == source && MintedAt(n, source, o.id, o.end) else o.EventSeen? && connections
  }

  ghost predicate AllDated(n: Naming, source: string, connections: bool, h: seq<Observation>) {
    forall i :: 0 <= i < |h| ==> DatedBy(n, source, connections, h[i])
  }

  lemma {:induction false} EventsDated(n: Naming, days: Grid, tx: Tx, id: string, connections: bool, events: seq<Event>)
    requires Regular(days) && AddEvents(days, tx, id, events).Ok? && (events != [] ==> connections)
    requires AllDated(n, id, connections, tx.accepted)
    ensures AllDated(n, id, connections, AddEvents(days, tx, id, events).value.accepted)
    decreases |events|
  {
    if events != [] {
      EventsDated(n, days, AddEvent(days, tx, id, events[0]).value, id, connections, events[1..]);
    }
  }

  lemma {:induction false} DeltasRecorded(n: Naming, days: Grid, tx: Tx, id: string, connections: bool, ds: seq<Delta>, now: Time, past: set<Time>)
    requires Regular(days) && id in tx.tables.sources && AddDeltas(days, tx, id, ds).Ok?
    requires AllCoined(n, id, now, ds) && now in past
    requires Stores(n, tx.tables, id, past) && AllDated(n, id, connections, tx.accepted)
    ensures var tx' := AddDeltas(days, tx, id, ds).value; Stores(n, tx'.tables, id, past) && AllDated(n, id, connections, tx'.accepted)
    decreases |ds|
  {
    if ds != [] {
      var next := AddDelta(days, tx, id, ds[0]).value;
      assert MintedAt(n, id, ds[0].id, now);
      DeltasRecorded(n, days, next, id, connections, ds[1..], now, past);
    }
  }

  lemma TransactRecorded(n: Naming, days: Grid, t: Tables, b: Batch, connections: bool, now: Time, past: set<Time>)
    requires Regular(days) && Transact(days, t, b).Ok? && AllCoined(n, b.sourceId, now, b.deltas) && (b.deltas != [] ==> now in past)
    requires Stores(n, t, b.sourceId, past) && (b.events != [] ==> connections)
    ensures var tx := Transact(days, t, b).value; Stores(n, tx.tables, b.sourceId, past) && AllDated(n, b.sourceId, connections, tx.accepted)
  {
    var start := Tx(Bind(t, b).value, 0, []);
    var mid := AddEvents(days, start, b.sourceId, b.events).value;
    EventsDated(n, days, start, b.sourceId, connections, b.events);
    EventsKeepIntervals(days, start, b.sourceId, b.events);
    if b.deltas != [] { DeltasRecorded(n, days, mid, b.sourceId, connections, b.deltas, now, past); }
    FinishFrame(days, Observe(days, t, b).value, b, DropsOf(t, b.sourceId));
  }

  ghost predicate Recorded(n: Naming, source: string, connections: bool, k: Book, past: set<Time>) {
    Stores(n, k.tables, source, past) && AllDated(n, source, connections, k.history)
  }

  lemma TellerRecorded(n: Naming, zones: map<string, Grid>, teller: Teller, k: Book, b: Batch, d: Disk, connections: bool, now: Time, past: set<Time>)
    requires AllRegular(zones) && Serves(zones, teller) && AllCoined(n, b.sourceId, now, b.deltas) && (b.deltas != [] ==> now in past)
    requires Recorded(n, b.sourceId, connections, k, past) && (b.events != [] ==> connections)
    ensures Recorded(n, b.sourceId, connections, teller(k, b, d).0, past)
  {
    assert teller(k, b, d) == Offer(zones, k, b, d);
    var storage := Storage(k.pressure, d.overBudget, d.full);
    if Ledger.Ingest(zones, k.tables, b, storage).Ok? {
      TransactRecorded(n, zones[ZoneName(b)], k.tables, b, connections, now, past);
    }
  }

  lemma CommitRecorded(n: Naming, zones: map<string, Grid>, teller: Teller, desk: Desk, b: Batch, k: Book, first: Disk, second: Disk, connections: bool, now: Time, past: set<Time>)
    requires AllRegular(zones) && Serves(zones, teller) && Injective(n) && AllEmitted(n, b.sourceId, now, b.deltas)
    requires Recorded(n, b.sourceId, connections, k, past) && (b.events != [] ==> connections) && (b.deltas != [] ==> now in past)
    ensures Recorded(n, b.sourceId, connections, Committed(n, teller, desk, b, k, first, second).book, past)
  {
    var sent := b.(status := Some(desk.status));
    TellerRecorded(n, zones, teller, k, sent, first, connections, now, past);
    if Compacted(n, b).Some? {
      var again := Compacted(n, b).value.(status := Some(CompactStatus(desk.status, b)));
      CompactKeepsBytes(n, b, Upload);
      CompactEmitted(n, b, now);
      TellerRecorded(n, zones, teller, teller(k, sent, first).0, again, second, connections, now, past);
    }
  }

  lemma TurnRecorded(g: Stage, s: Scene, a: Act, past: set<Time>)
    requires Ready(g) && Injective(g.naming) && Fair(a) && a.PollAct? && (a.reading.Counted? ==> a.reading.now in past)
    requires Recorded(g.naming, g.config.id, g.config.kind == "mihomo", s.book, past)
    ensures Recorded(g.naming, g.config.id, g.config.kind == "mihomo", TurnOf(g, s, a).book, past)
  {
    var r := a.reading;
    BatchEmitted(g.naming, g.config, s.desk, r);
    CommitRecorded(g.naming, g.zones, g.teller, DeskAfterReading(g.naming, g.config, s.desk, r), BatchOf(g.naming, g.config, s.desk, r),
                   s.book, a.first, a.second, g.config.kind == "mihomo", r.now, past);
  }

  lemma ActRecorded(g: Stage, s: Scene, a: Act, past: set<Time>)
    requires Ready(g) && Injective(g.naming) && Fair(a) && (a.PollAct? && a.reading.Counted? ==> a.reading.now in past)
    requires Recorded(g.naming, g.config.id, g.config.kind == "mihomo", s.book, past)
    ensures Recorded(g.naming, g.config.id, g.config.kind == "mihomo", Do(g, s, a).book, past)
  {
    if a.PollAct? { TurnRecorded(g, s, a, past); }
  }

  /** In every run each stored interval carries the stamp of the poll its identifier names,
      and each accepted one ends there. */
  lemma {:induction false} RunRecorded(g: Stage, acts: seq<Act>)
    requires Ready(g) && Injective(g.naming) && AllFair(acts)
    ensures Recorded(g.naming, g.config.id, g.config.kind == "mihomo", Play(g, acts).book, Instants(acts))
  {
    if acts != [] {
      var before := acts[..|acts| - 1];
      RunRecorded(g, before);
      ActRecorded(g, Play(g, before), acts[|acts| - 1], Instants(acts));
    }
  }

  // ---------- the ledger holds what was committed ----------

  /** The bytes of the committed batches, those at or below the watermark for details excepted. */
  ghost function CommittedBytes(g: Stage, acts: seq<Act>, w: Way): int
    requires Ready(g) && AllFair(acts)
  {
    if acts == [] then 0
    else
      var before := acts[..|acts| - 1];
      var a := acts[|acts| - 1];
      var s := Play(g, before);
      CommittedBytes(g, before, w) +
      if a.PollAct? && TurnOf(g, s, a).error.None?
      then Brought(a.reading.now, Cut(s.book.tables.detailCutoff), SumBytes(BatchOf(g.naming, g.config, s.desk, a.reading).deltas, w)) else 0
  }

  lemma StoredIsOlder(n: Naming, t: Tables, source: string, past: set<Time>, now: Time)
    requires Injective(n) && Stores(n, t, source, past) && now !in past
    ensures Unminted(n, t, source, now)
  {
    forall id {:trigger DetailKey(source, id, DeltaDetail)} | DetailKey(source, id, DeltaDetail) in t.details
      ensures !MintedAt(n, source, id, now)
    {
      var earlier :| earlier in past && MintedAt(n, source, id, earlier);
      if MintedAt(n, source, id, now) { MintedOnce(n, source, id, now, earlier); }
    }
  }

  /** Over any run whose polls have instants of their own, the ledger holds exactly the bytes
      of the committed batches: nothing measured is taken for something else and dropped. */
  lemma {:induction false} LedgerIsCommitted(g: Stage, acts: seq<Act>, f: Filter, w: Way)
    requires Ready(g) && Injective(g.naming) && AllFair(acts) && OwnInstants(acts) && AsksBytes(f, g.config.id, w)
    ensures Total(Play(g, acts).book.history, f) == CommittedBytes(g, acts, w)
  {
    if acts != [] {
      var s := Play(g, acts[..|acts| - 1]);
      var a := acts[|acts| - 1];
      LedgerIsCommitted(g, acts[..|acts| - 1], f, w);
      if a.PollAct? {
        if a.reading.Counted? {
          RunRecorded(g, acts[..|acts| - 1]);
          StoredIsOlder(g.naming, s.book.tables, g.config.id, Instants(acts[..|acts| - 1]), a.reading.now);
        }
        TurnAddsAll(g.naming, g.zones, g.teller, g.config, s.desk, s.book, a.reading, a.first, a.second, f, w);
      }
    }
  }
}
