/** What a collector commits counts once. */
module CollectorReplay {
  import opened Clock
  import opened Calendar
  import opened Ledger
  import opened History
  import opened Coverage
  import opened Replay
  import opened Once
  import opened SourceId
  import opened Counters
  import opened Compact
  import opened Collector
  import opened CollectorRuns
  import opened Minting
  import opened Exact

  // What Once and Replay ask of identifiers holds of every interval a collector commits. It
  // does not hold of connection events, whose identifiers omit the time.

  /** Accepted intervals with one identity end at one instant. */
  lemma DatedIntervals(n: Naming, source: string, connections: bool, h: seq<Observation>)
    requires Injective(n) && AllDated(n, source, connections, h)
    ensures DatedById(h, Intervals()) && (!connections ==> DatedById(h, Any()))
  {
    forall i, j | 0 <= i < j < |h| && h[i].IntervalSeen? && SameIdentity(h[i], h[j]) ensures Stamp(h[i]) == Stamp(h[j]) {
      assert DatedBy(n, source, connections, h[i]) && DatedBy(n, source, connections, h[j]);
      MintedOnce(n, source, h[i].id, h[i].end, h[j].end);
    }
    forall i | 0 <= i < |h| && !connections ensures h[i].IntervalSeen? {
      assert DatedBy(n, source, connections, h[i]);
    }
  }

  /** In every run of a collector no interval is ever accepted twice, and for sources other
      than connections nothing is, whatever retention removes. */
  lemma CollectsOnce(g: Stage, acts: seq<Act>)
    requires Ready(g) && Injective(g.naming) && AllFair(acts) && ModernPlay(g, acts)
    ensures NoRepeats(Play(g, acts).book.history, Intervals())
    ensures g.config.kind != "mihomo" ==> NoRepeats(Play(g, acts).book.history, Any())
  {
    var ops := PlayIsRun(g, acts);
    RunRecorded(g, acts);
    DatedIntervals(g.naming, g.config.id, g.config.kind == "mihomo", Play(g, acts).book.history);
    AcceptedOnce(g.zones, ops, Intervals());
    if g.config.kind != "mihomo" { AcceptedOnce(g.zones, ops, Any()); }
  }

  /** The event of a connection carries the same identifier at every poll. Once retention has
      passed the poll that stored it, the same connection is taken for a new one. */
  lemma ConnectionCountsAgain(n: Naming, t: Tables, p: Poll, p': Poll, key: string)
    requires key in p.values && key in p'.values && p.values[key].identity == p'.values[key].identity && p.source == p'.source
    requires UnixMilli(p.now) < UnixMilli(p'.now) && 0 <= p.now && 0 <= Cut(t.detailCutoff) <= UnixMilli(p'.now)
    requires var k := EventKey(p.source, ConnectionEvent(n, p, key)); k in t.details && t.details[k] == Millis(p.now)
    ensures ConnectionEvent(n, p, key).id == ConnectionEvent(n, p', key).id
    ensures EventIgnored(t, p.source, ConnectionEvent(n, p', key))
    ensures !EventIgnored(Prune(t, Horizon(p'.now, 0, 0)), p.source, ConnectionEvent(n, p', key))
  {}

  // ---------- replays ----------

  /** The stored stamps of a collector's intervals are the batch's own. */
  lemma StampsOfIntervals(n: Naming, t: Tables, b: Batch, now: Time, past: set<Time>)
    requires Injective(n) && Stores(n, t, b.sourceId, past) && AllCoined(n, b.sourceId, now, b.deltas) && b.events == []
    ensures StampsMatch(t, b)
  {
    forall d | d in b.deltas && DeltaKey(b.sourceId, d) in t.details
      ensures d.granularity != "day" && UnixMilli(d.end) <= t.details[DeltaKey(b.sourceId, d)]
    {
      var i :| 0 <= i < |b.deltas| && b.deltas[i] == d;
      assert DeltaKey(b.sourceId, d) == DetailKey(b.sourceId, d.id, DeltaDetail);
      var earlier :| earlier in past && MintedAt(n, b.sourceId, d.id, earlier) && t.details[DeltaKey(b.sourceId, d)] == Millis(earlier);
      MintedOnce(n, b.sourceId, d.id, now, earlier);
    }
    forall d | d in b.deltas ensures d.granularity != "day" {
      var i :| 0 <= i < |b.deltas| && b.deltas[i] == d;
    }
  }

  /** The batch a poll of a run sends, in the form it was committed in. */
  ghost function SentAt(g: Stage, acts: seq<Act>, i: nat): Batch
    requires Ready(g) && AllFair(acts) && i < |acts| && acts[i].PollAct?
  {
    var s := Play(g, acts[..i]);
    Sent(g.naming, g.teller, DeskAfterReading(g.naming, g.config, s.desk, acts[i].reading),
         BatchOf(g.naming, g.config, s.desk, acts[i].reading), s.book, acts[i].first)
  }

  lemma SentIsCoined(n: Naming, teller: Teller, desk: Desk, b: Batch, k: Book, first: Disk, now: Time)
    requires Injective(n) && AllEmitted(n, b.sourceId, now, b.deltas)
    ensures var sent := Sent(n, teller, desk, b, k, first);
            sent.sourceId == b.sourceId && AllCoined(n, b.sourceId, now, sent.deltas) && (b.events == [] ==> sent.events == [])
  {
    if Compacted(n, b).Some? {
      CompactKeepsBytes(n, b, Upload);
      CompactEmitted(n, b, now);
    }
  }

  lemma ModernPrefix(g: Stage, acts: seq<Act>, i: nat)
    requires Ready(g) && AllFair(acts) && ModernPlay(g, acts) && i <= |acts|
    ensures ModernPlay(g, acts[..i])
  {
    forall k | 0 <= k < i ensures ModernAct(Play(g, acts[..i][..k]), acts[..i][k]) {
      assert acts[..i][..k] == acts[..k];
    }
  }

  /** The operations up to and including the commit. */
  lemma RunToCommit(g: Stage, acts: seq<Act>, i: nat) returns (ops: seq<Op>)
    requires Ready(g) && AllFair(acts) && ModernPlay(g, acts) && i < |acts| && acts[i].PollAct?
    requires TurnOf(g, Play(g, acts[..i]), acts[i]).error.None?
    ensures Keeps(g.zones, ops, TurnOf(g, Play(g, acts[..i]), acts[i]).book, true) && EndsWith(g.zones, ops, SentAt(g, acts, i))
  {
    ModernPrefix(g, acts, i);
    assert acts[..i][..0] == [];
    var before := PlayGoesOn(g, acts[..i], 0, [], true);
    ops := PollKeeps(g, Play(g, acts[..i]), acts[i], before, true);
  }

  lemma PlayNext(g: Stage, acts: seq<Act>, i: nat)
    requires Ready(g) && AllFair(acts) && i < |acts| && acts[i].PollAct?
    ensures Play(g, acts[..i + 1]).book == TurnOf(g, Play(g, acts[..i]), acts[i]).book
  {
    assert acts[..i + 1][..i] == acts[..i];
  }

  lemma CommitSettled(g: Stage, acts: seq<Act>, i: nat)
    requires Ready(g) && Injective(g.naming) && AllFair(acts) && g.config.kind != "mihomo"
    requires i < |acts| && acts[i].PollAct? && TurnOf(g, Play(g, acts[..i]), acts[i]).error.None?
    ensures StampsMatch(TurnOf(g, Play(g, acts[..i]), acts[i]).book.tables, SentAt(g, acts, i))
  {
    var s := Play(g, acts[..i]);
    RunRecorded(g, acts[..i + 1]);
    PlayNext(g, acts, i);
    BatchEmitted(g.naming, g.config, s.desk, acts[i].reading);
    SentIsCoined(g.naming, g.teller, DeskAfterReading(g.naming, g.config, s.desk, acts[i].reading),
                 BatchOf(g.naming, g.config, s.desk, acts[i].reading), s.book, acts[i].first, acts[i].reading.now);
    StampsOfIntervals(g.naming, TurnOf(g, s, acts[i]).book.tables, SentAt(g, acts, i), acts[i].reading.now, Instants(acts[..i + 1]));
  }

  lemma ReplayInRun(zones: map<string, Grid>, upTo: seq<Op>, ops: seq<Op>, b: Batch, storage: Storage, q: Span)
    requires AllRegular(zones) && ModernRun(zones, ops) && upTo <= ops && EndsWith(zones, upTo, b)
    requires StampsMatch(Run(zones, upTo).tables, b)
    requires Ingest(zones, Run(zones, ops).tables, b, storage).Ok? && SpanOn(GridOf(zones[ZoneName(b)], q.res), q)
    ensures var t := Run(zones, ops).tables;
            var w := Apply(zones, Run(zones, ops), IngestOp(b, storage));
            && w.history == Run(zones, ops).history && w.tables.metrics == t.metrics
            && w.tables.details == t.details && w.tables.imports == t.imports
            && SumCoverage(w.tables.coverage, q) == SumCoverage(t.coverage, q)
  {
    var j := |upTo| - 1;
    assert ops[..j + 1] == upTo && ops[..j] == upTo[..j] && ops[j] == upTo[j];
    ReplayChangesNothing(zones, ops, j, storage, q);
  }

  /** For every source but connections: offering the batch of a committed poll again at any
      later time changes no metric, no stored identity and no coverage total. */
  lemma PollReplaysNeutrally(g: Stage, acts: seq<Act>, i: nat, storage: Storage, q: Span)
    requires Ready(g) && Injective(g.naming) && AllFair(acts) && ModernPlay(g, acts) && g.config.kind != "mihomo"
    requires i < |acts| && acts[i].PollAct? && TurnOf(g, Play(g, acts[..i]), acts[i]).error.None?
    requires var b := SentAt(g, acts, i);
             Ingest(g.zones, Play(g, acts).book.tables, b, storage).Ok? && SpanOn(GridOf(g.zones[ZoneName(b)], q.res), q)
    ensures var k := Play(g, acts).book;
            var w := Apply(g.zones, World(k.tables, k.history), IngestOp(SentAt(g, acts, i), storage));
            && w.history == k.history && w.tables.metrics == k.tables.metrics
            && w.tables.details == k.tables.details && w.tables.imports == k.tables.imports
            && SumCoverage(w.tables.coverage, q) == SumCoverage(k.tables.coverage, q)
  {
    var upTo := RunToCommit(g, acts, i);
    PlayNext(g, acts, i);
    var ops := PlayGoesOn(g, acts, i + 1, upTo, true);
    CommitSettled(g, acts, i);
    ReplayInRun(g.zones, upTo, ops, SentAt(g, acts, i), storage, q);
  }
}
