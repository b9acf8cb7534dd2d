/** From the log to the table. */
module TailLedger {
  import opened Wrappers
  import opened Clock
  import opened Calendar
  import opened Ledger
  import opened Rollup
  import opened SourceId
  import opened Lines
  import opened Tail
  import opened TailRuns
  import opened Appending
  import opened Accepting
  import History
  import Pinning
  import Drops
  import Collector
  import CollectorRuns
  import Counters

  // The collector of a log keeps its position in the ledger itself: what a poll found and how
  // far it came are one transaction. So the table counts each accepted line exactly once.

  // ---------- one turn ----------

  type Book = Collector.Book

  /** The collector of one log: its store, its configuration and how a position is written
      into a checkpoint and read back. */
  datatype Stage = Stage(
    zones: map<string, Grid>, teller: Collector.Teller, config: Collector.Config, tail: Config,
    render: Position -> string, read: string -> Option<Position>)

  ghost predicate Ready(g: Stage) {
    && AllRegular(g.zones) && Collector.Serves(g.zones, g.teller) && g.tail.source == g.config.id
    && forall p {:trigger g.render(p)} :: g.read(g.render(p)) == Some(p)
  }

  /** Something happens: a poll, a restart of the collector, or a retention pass. */
  datatype Move = Turn(look: Look, disk: Collector.Disk) | Reopen | Retire(op: History.Op)

  datatype Scene = Scene(memory: Memory, status: Status, book: Book)

  function StatusAfter(s: Status, p: Polled): Status {
    var counted := s.(gapCount := s.gapCount + p.gaps, droppedEvents := s.droppedEvents + p.dropped);
    if p.failed then
      counted.(gapCount := counted.gapCount + if s.state != SourceDown then 1 else 0, state := SourceDown, message := Told(""))
    else Collector.Noted(s, p.gaps, Counters.Watched([], p.coverage, 0, false), p.dropped)
  }

  /** A failed poll sends an empty batch, any other its events and its position. */
  function BatchOf(g: Stage, p: Polled, now: Time): Batch {
    var empty := Collector.EmptyBatch(g.config, now);
    if p.failed then empty
    else empty.(events := p.events, coverageStart := p.coverage,
                checkpoint := Some(Checkpoint("access", g.render(p.memory.position), true, now)))
  }

  ghost function OfferOf(g: Stage, s: Scene, look: Look, disk: Collector.Disk): (Book, Option<Error>) {
    var p := PollTail(g.tail, s.memory, look);
    g.teller(s.book, BatchOf(g, p, look.now).(status := Some(StatusAfter(s.status, p))), disk)
  }

  /** Poll the log and commit; a refused commit puts the tail back where it was. */
  ghost function Turned(g: Stage, s: Scene, look: Look, disk: Collector.Disk): Scene {
    var p := PollTail(g.tail, s.memory, look);
    var status := StatusAfter(s.status, p);
    var offer := OfferOf(g, s, look, disk);
    if offer.1.Some? then Scene(RolledBack(s.memory), Collector.RolledBack(status, offer.1.value).status, offer.0)
    else Scene(if p.failed then p.memory.(last := ZERO_TIME) else p.memory, status, offer.0)
  }

  /** The position a restarted collector finds in the ledger. */
  function Restored(g: Stage, t: Tables): Option<Position> {
    var k := CheckpointKey(g.config.id, "access");
    if k in t.checkpoints then g.read(t.checkpoints[k].value) else None
  }

  /** And the status: the stored one, brought up to date. */
  function Recalled(g: Stage, t: Tables): Status {
    if g.config.id in t.sources then Drops.ReadStatus(t.sources[g.config.id]) else NEW_STATUS
  }

  ghost function Do(g: Stage, s: Scene, a: Move): Scene
    requires Ready(g)
  {
    match a
    case Turn(look, disk) => Turned(g, s, look, disk)
    case Reopen => Scene(Fresh(Restored(g, s.book.tables)), Recalled(g, s.book.tables), s.book)
    case Retire(op) => s.(book := s.book.(tables := History.Retain(g.zones, s.book.tables, op)))
  }

  ghost function Play(g: Stage, moves: seq<Move>): Scene
    requires Ready(g)
  {
    if moves == [] then Scene(Fresh(None), NEW_STATUS, Collector.Book(EMPTY_TABLES, [], false))
    else Do(g, Play(g, moves[..|moves| - 1]), moves[|moves| - 1])
  }

  // ---------- a played run is a run of the tail ----------

  /** What the tail lives through in a move: what the ledger answered decides. */
  ghost function Fate(g: Stage, s: Scene, a: Move): seq<Act> {
    match a
    case Turn(look, disk) => [Poll(look, OfferOf(g, s, look, disk).1.None?)]
    case Reopen => [Restart]
    case Retire(_) => []
  }

  ghost function Acts(g: Stage, moves: seq<Move>): seq<Act>
    requires Ready(g)
  {
    if moves == [] then []
    else Acts(g, moves[..|moves| - 1]) + Fate(g, Play(g, moves[..|moves| - 1]), moves[|moves| - 1])
  }

  lemma RunMore(c: Config, acts: seq<Act>, a: Act)
    ensures Run(c, acts + [a]) == Step(c, Run(c, acts), a)
  {
    assert (acts + [a])[..|acts|] == acts;
  }

  /** The ledger saves the position with the events, and nothing else. */
  lemma OfferSaves(g: Stage, k: Book, b: Batch, d: Collector.Disk)
    requires Ready(g) && b.sourceId == g.config.id && (b.checkpoint.Some? ==> b.checkpoint.value.key == "access")
    ensures var o := g.teller(k, b, d);
            Restored(g, o.0.tables) ==
            if o.1.None? && b.checkpoint.Some? then g.read(b.checkpoint.value.value) else Restored(g, k.tables)
  {
    assert g.teller(k, b, d) == Collector.Offer(g.zones, k, b, d);
    var storage := Storage(k.pressure, d.overBudget, d.full);
    if Ingest(g.zones, k.tables, b, storage).Ok? {
      Pinning.CheckpointRides(g.zones[ZoneName(b)], k.tables, b);
    }
  }

  lemma TurnIsStep(g: Stage, s: Scene, l: Life, look: Look, disk: Collector.Disk)
    requires Ready(g) && Mirrors(g, s, l)
    ensures Mirrors(g, Turned(g, s, look, disk), Step(g.tail, l, Poll(look, OfferOf(g, s, look, disk).1.None?)))
  {
    var p := PollTail(g.tail, s.memory, look);
    OfferSaves(g, s.book, BatchOf(g, p, look.now).(status := Some(StatusAfter(s.status, p))), disk);
    assert g.read(g.render(p.memory.position)) == Some(p.memory.position);
  }

  /** The tail in memory is the tail of the run, and its committed position the checkpoint. */
  ghost predicate Mirrors(g: Stage, s: Scene, l: Life) { l.memory == s.memory && l.saved == Restored(g, s.book.tables) }

  lemma ReopenIsRestart(g: Stage, s: Scene, l: Life)
    requires Ready(g) && Mirrors(g, s, l)
    ensures Mirrors(g, Do(g, s, Reopen), Step(g.tail, l, Restart))
  {}

  lemma RetireIsNothing(g: Stage, s: Scene, l: Life, op: History.Op)
    requires Ready(g) && Mirrors(g, s, l)
    ensures Mirrors(g, Do(g, s, Retire(op)), l)
  {}

  lemma MoveIsStep(g: Stage, s: Scene, acts: seq<Act>, a: Move)
    requires Ready(g) && Mirrors(g, s, Run(g.tail, acts))
    ensures Mirrors(g, Do(g, s, a), Run(g.tail, acts + Fate(g, s, a)))
  {
    var l := Run(g.tail, acts);
    match a
    case Turn(look, disk) =>
      TurnIsStep(g, s, l, look, disk);
      RunMore(g.tail, acts, Poll(look, OfferOf(g, s, look, disk).1.None?));
    case Reopen =>
      ReopenIsRestart(g, s, l);
      RunMore(g.tail, acts, Restart);
    case Retire(op) =>
      RetireIsNothing(g, s, l, op);
      assert acts + [] == acts;
  }

  /** The ledger's checkpoint is the committed position of the tail, in every run. */
  lemma {:induction false} PlayIsTail(g: Stage, moves: seq<Move>)
    requires Ready(g)
    ensures Mirrors(g, Play(g, moves), Run(g.tail, Acts(g, moves)))
  {
    if moves != [] {
      var before := moves[..|moves| - 1];
      PlayIsTail(g, before);
      MoveIsStep(g, Play(g, before), Acts(g, before), moves[|moves| - 1]);
    }
  }

  // ---------- committed events are counted ----------

  /** How many of the events lie at or above the watermark for details. */
  function Kept(events: seq<Event>, cut: int): nat {
    if events == [] then 0 else (if UnixMilli(events[0].at) >= cut then 1 else 0) + Kept(events[1..], cut)
  }

  ghost predicate AsksEvents(f: History.Filter, id: string) { f.column.Events? && forall d :: f.keep(id, d) }

  predicate NoneStored(t: Tables, id: string, events: seq<Event>) {
    forall i :: 0 <= i < |events| ==> DetailKey(id, events[i].id, EventDetail) !in t.details
  }

  lemma FreshEvent(days: Grid, tx: Tx, id: string, e: Event, f: History.Filter)
    requires Regular(days) && AddEvent(days, tx, id, e).Ok? && AsksEvents(f, id)
    requires e.count == 1 && DetailKey(id, e.id, EventDetail) !in tx.tables.details
    ensures var tx' := AddEvent(days, tx, id, e).value;
            && Total(tx'.accepted, f) == Total(tx.accepted, f) + Kept([e], Cut(tx.tables.detailCutoff))
            && tx'.tables.detailCutoff == tx.tables.detailCutoff
            && forall k :: k in tx'.tables.details ==> k in tx.tables.details || k == DetailKey(id, e.id, EventDetail)
  {
    assert [e][1..] == [];
    CollectorRuns.TotalAppend(tx.accepted, EventSeen(id, e.id, Normalize(e.dims), e.at, 1), f);
  }

  lemma KeptSplits(events: seq<Event>, cut: int)
    requires events != []
    ensures Kept(events, cut) == Kept([events[0]], cut) + Kept(events[1..], cut)
  {
    assert [events[0]][1..] == [];
  }

  lemma {:induction false} FreshEvents(days: Grid, tx: Tx, id: string, events: seq<Event>, f: History.Filter)
    requires Regular(days) && AddEvents(days, tx, id, events).Ok? && AsksEvents(f, id)
    requires Single(events) && DistinctIds(events) && NoneStored(tx.tables, id, events)
    ensures Total(AddEvents(days, tx, id, events).value.accepted, f) == Total(tx.accepted, f) + Kept(events, Cut(tx.tables.detailCutoff))
    decreases |events|
  {
    if events != [] {
      var next := AddEvent(days, tx, id, events[0]).value;
      FreshEvent(days, tx, id, events[0], f);
      KeptSplits(events, Cut(tx.tables.detailCutoff));
      forall i | 0 <= i < |events[1..]| ensures DetailKey(id, events[1..][i].id, EventDetail) !in next.tables.details && events[1..][i].count == 1 {
        assert events[1..][i] == events[i + 1];
      }
      FreshEvents(days, next, id, events[1..], f);
    }
  }

  /** Every stored event of the source is one of these. */
  ghost predicate StoredAmong(t: Tables, id: string, ids: set<string>) {
    forall x {:trigger DetailKey(id, x, EventDetail)} :: DetailKey(id, x, EventDetail) in t.details ==> x in ids
  }

  function IdsOf(events: seq<Event>): set<string> { set i | 0 <= i < |events| :: events[i].id }

  lemma {:induction false} EventsStoreTheirs(days: Grid, tx: Tx, id: string, events: seq<Event>, ids: set<string>)
    requires Regular(days) && AddEvents(days, tx, id, events).Ok? && StoredAmong(tx.tables, id, ids)
    ensures StoredAmong(AddEvents(days, tx, id, events).value.tables, id, ids + IdsOf(events))
    decreases |events|
  {
    if events != [] {
      var next := AddEvent(days, tx, id, events[0]).value;
      EventsStoreTheirs(days, next, id, events[1..], ids + {events[0].id});
      assert IdsOf(events) == {events[0].id} + IdsOf(events[1..]) by {
        forall x | x in IdsOf(events) ensures x in {events[0].id} + IdsOf(events[1..]) {
          var i :| 0 <= i < |events| && events[i].id == x;
          if i > 0 { assert events[1..][i - 1].id == x; }
        }
      }
      assert ids + IdsOf(events) == (ids + {events[0].id}) + IdsOf(events[1..]);
    }
  }

  /** A transaction of fresh events raises the count by those at or above the watermark. */
  lemma TransactCounts(days: Grid, t: Tables, b: Batch, ids: set<string>, f: History.Filter)
    requires Regular(days) && Transact(days, t, b).Ok? && AsksEvents(f, b.sourceId) && b.deltas == []
    requires Single(b.events) && DistinctIds(b.events) && StoredAmong(t, b.sourceId, ids) && IdsOf(b.events) !! ids
    ensures var tx := Transact(days, t, b).value;
            && Total(tx.accepted, f) == Kept(b.events, Cut(t.detailCutoff))
            && StoredAmong(tx.tables, b.sourceId, ids + IdsOf(b.events))
  {
    var start := Tx(Bind(t, b).value, 0, []);
    forall i | 0 <= i < |b.events| ensures DetailKey(b.sourceId, b.events[i].id, EventDetail) !in t.details {
      assert b.events[i].id in IdsOf(b.events);
    }
    FreshEvents(days, start, b.sourceId, b.events, f);
    EventsStoreTheirs(days, start, b.sourceId, b.events, ids);
    History.FinishFrame(days, Observe(days, t, b).value, b, DropsOf(t, b.sourceId));
  }

  lemma OfferCounts(g: Stage, k: Book, b: Batch, d: Collector.Disk, ids: set<string>, f: History.Filter)
    requires Ready(g) && AsksEvents(f, b.sourceId) && b.deltas == []
    requires Single(b.events) && DistinctIds(b.events) && StoredAmong(k.tables, b.sourceId, ids) && IdsOf(b.events) !! ids
    ensures var o := g.teller(k, b, d);
            if o.1.Some? then o.0.tables == k.tables && o.0.history == k.history
            else && Total(o.0.history, f) == Total(k.history, f) + Kept(b.events, Cut(k.tables.detailCutoff))
                 && StoredAmong(o.0.tables, b.sourceId, ids + IdsOf(b.events))
  {
    assert g.teller(k, b, d) == Collector.Offer(g.zones, k, b, d);
    var storage := Storage(k.pressure, d.overBudget, d.full);
    if Ingest(g.zones, k.tables, b, storage).Ok? {
      TransactCounts(g.zones[ZoneName(b)], k.tables, b, ids, f);
      CollectorRuns.TotalConcat(k.history, Ingest(g.zones, k.tables, b, storage).value.accepted, f);
    }
  }

  // ---------- over a run ----------

  lemma {:induction false} PassSingle(log: Log, text: string, from: nat, until: nat, skipping: bool, clock: nat -> Time)
    requires from <= until <= |text|
    ensures Single(OnePass(log, text, from, until, skipping, clock).events)
    decreases until - from
  {
    var i := Newline(text, from, until);
    if i < until {
      PassLine(log, text, from, until, skipping, clock);
      PassSingle(log, text, i + 1, until, false, clock);
    } else {
      PassEnds(log, text, from, until, skipping, clock);
    }
  }

  lemma PollSingle(c: Config, m: Memory, look: Look)
    ensures Single(PollTail(c, m, look).events)
  {
    if Begun(c, m, look).Some? {
      var b := Begun(c, m, look).value;
      SweptIsGenuine(c, b, look);
      PassSingle(LogOf(c, b.position), b.text, b.position.offset, Swept(c, b, look).offset, b.position.skipping, Always(look.now));
    }
  }

  lemma IdsJoin(a: seq<Event>, b: seq<Event>)
    ensures IdsOf(a + b) == IdsOf(a) + IdsOf(b)
  {
    forall x | x in IdsOf(a) + IdsOf(b) ensures x in IdsOf(a + b) {
      if x in IdsOf(a) {
        var i :| 0 <= i < |a| && a[i].id == x;
        assert (a + b)[i].id == x;
      } else {
        var i :| 0 <= i < |b| && b[i].id == x;
        assert (a + b)[|a| + i].id == x;
      }
    }
  }

  lemma DistinctParts(a: seq<Event>, b: seq<Event>)
    requires DistinctIds(a + b)
    ensures DistinctIds(b) && IdsOf(b) !! IdsOf(a)
  {
    forall i, j | 0 <= i < j < |b| ensures b[i].id != b[j].id {
      assert b[i] == (a + b)[|a| + i] && b[j] == (a + b)[|a| + j];
    }
    forall x | x in IdsOf(a) ensures x !in IdsOf(b) {
      var i :| 0 <= i < |a| && a[i].id == x;
      forall j | 0 <= j < |b| ensures b[j].id != x {
        assert a[i] == (a + b)[i] && b[j] == (a + b)[|a| + j];
      }
    }
  }

  /** The events a turn brings into the table. */
  ghost function Brought(g: Stage, s: Scene, a: Move): nat {
    if a.Turn? && OfferOf(g, s, a.look, a.disk).1.None? && !PollTail(g.tail, s.memory, a.look).failed
    then Kept(PollTail(g.tail, s.memory, a.look).events, Cut(s.book.tables.detailCutoff)) else 0
  }

  ghost function Counted(g: Stage, moves: seq<Move>): nat
    requires Ready(g)
  {
    if moves == [] then 0
    else Counted(g, moves[..|moves| - 1]) + Brought(g, Play(g, moves[..|moves| - 1]), moves[|moves| - 1])
  }

  /** What a committed poll adds to the entries of the tail's run. */
  lemma TurnAddsEvents(c: Config, l: Life, look: Look)
    ensures var l' := Step(c, l, Poll(look, true));
            PassOf(l'.entries).events == PassOf(l.entries).events + if PollTail(c, l.memory, look).failed then [] else PollTail(c, l.memory, look).events
  {
    var l' := Step(c, l, Poll(look, true));
    if !PollTail(c, l.memory, look).failed { assert l'.entries[..|l'.entries| - 1] == l.entries; }
  }

  lemma TurnCounts(g: Stage, s: Scene, l: Life, look: Look, disk: Collector.Disk, f: History.Filter)
    requires Ready(g) && Mirrors(g, s, l) && AsksEvents(f, g.config.id)
    requires StoredAmong(s.book.tables, g.config.id, IdsOf(PassOf(l.entries).events))
    requires var l' := Step(g.tail, l, Poll(look, OfferOf(g, s, look, disk).1.None?)); DistinctIds(PassOf(l'.entries).events)
    ensures var s' := Turned(g, s, look, disk);
            var l' := Step(g.tail, l, Poll(look, OfferOf(g, s, look, disk).1.None?));
            && Total(s'.book.history, f) == Total(s.book.history, f) + Brought(g, s, Turn(look, disk))
            && StoredAmong(s'.book.tables, g.config.id, IdsOf(PassOf(l'.entries).events))
  {
    var p := PollTail(g.tail, s.memory, look);
    var b := BatchOf(g, p, look.now).(status := Some(StatusAfter(s.status, p)));
    var before := PassOf(l.entries).events;
    if OfferOf(g, s, look, disk).1.None? {
      TurnAddsEvents(g.tail, l, look);
      PollSingle(g.tail, s.memory, look);
      DistinctParts(before, b.events);
      IdsJoin(before, b.events);
      OfferCounts(g, s.book, b, disk, IdsOf(before), f);
    } else {
      RefusedKeeps(g, s.book, b, disk);
    }
  }

  lemma RefusedKeeps(g: Stage, k: Book, b: Batch, d: Collector.Disk)
    requires Ready(g) && g.teller(k, b, d).1.Some?
    ensures g.teller(k, b, d).0.tables == k.tables && g.teller(k, b, d).0.history == k.history
  {
    assert g.teller(k, b, d) == Collector.Offer(g.zones, k, b, d);
  }

  ghost predicate Tallies(g: Stage, s: Scene, es: seq<Entry>, f: History.Filter, count: int) {
    Total(s.book.history, f) == count && StoredAmong(s.book.tables, g.config.id, IdsOf(PassOf(es).events))
  }

  lemma TurnTallies(g: Stage, s: Scene, acts: seq<Act>, look: Look, disk: Collector.Disk, f: History.Filter, count: int)
    requires Ready(g) && Injective(g.tail.naming) && AsksEvents(f, g.config.id)
    requires Mirrors(g, s, Run(g.tail, acts)) && Tallies(g, s, Run(g.tail, acts).entries, f, count)
    ensures var a := Turn(look, disk);
            Tallies(g, Turned(g, s, look, disk), Run(g.tail, acts + Fate(g, s, a)).entries, f, count + Brought(g, s, a))
  {
    var a := Poll(look, OfferOf(g, s, look, disk).1.None?);
    CommittedAtMostOnce(g.tail, acts + [a]);
    RunMore(g.tail, acts, a);
    TurnCounts(g, s, Run(g.tail, acts), look, disk, f);
  }

  lemma RetainForgets(zones: map<string, Grid>, t: Tables, op: History.Op, id: string, ids: set<string>)
    requires AllRegular(zones) && StoredAmong(t, id, ids)
    ensures StoredAmong(History.Retain(zones, t, op), id, ids)
  {}

  lemma ReopenTallies(g: Stage, s: Scene, acts: seq<Act>, f: History.Filter, count: int)
    requires Ready(g) && Tallies(g, s, Run(g.tail, acts).entries, f, count)
    ensures Tallies(g, Do(g, s, Reopen), Run(g.tail, acts + [Restart]).entries, f, count)
  {
    RunMore(g.tail, acts, Restart);
    assert Run(g.tail, acts + [Restart]).entries == Run(g.tail, acts).entries;
  }

  lemma RetireTallies(g: Stage, s: Scene, es: seq<Entry>, op: History.Op, f: History.Filter, count: int)
    requires Ready(g) && Tallies(g, s, es, f, count)
    ensures Tallies(g, Do(g, s, Retire(op)), es, f, count)
  {
    RetainForgets(g.zones, s.book.tables, op, g.config.id, IdsOf(PassOf(es).events));
  }

  lemma MoveTallies(g: Stage, s: Scene, acts: seq<Act>, a: Move, f: History.Filter, count: int)
    requires Ready(g) && Injective(g.tail.naming) && AsksEvents(f, g.config.id)
    requires Mirrors(g, s, Run(g.tail, acts)) && Tallies(g, s, Run(g.tail, acts).entries, f, count)
    ensures Tallies(g, Do(g, s, a), Run(g.tail, acts + Fate(g, s, a)).entries, f, count + Brought(g, s, a))
  {
    match a
    case Turn(look, disk) => TurnTallies(g, s, acts, look, disk, f, count);
    case Reopen => ReopenTallies(g, s, acts, f, count);
    case Retire(op) =>
      RetireTallies(g, s, Run(g.tail, acts).entries, op, f, count);
      assert acts + [] == acts;
  }

  /** In every run the events accepted are those of the committed polls, each once, those
      below the watermark for details excepted. */
  lemma {:induction false} LedgerCountsEvents(g: Stage, moves: seq<Move>, f: History.Filter)
    requires Ready(g) && Injective(g.tail.naming) && AsksEvents(f, g.config.id)
    ensures Tallies(g, Play(g, moves), Run(g.tail, Acts(g, moves)).entries, f, Counted(g, moves))
  {
    if moves != [] {
      var before := moves[..|moves| - 1];
      LedgerCountsEvents(g, before, f);
      PlayIsTail(g, before);
      MoveTallies(g, Play(g, before), Acts(g, before), moves[|moves| - 1], f, Counted(g, before));
    }
  }

  // ---------- the table counts the lines of the log ----------

  /** The run of the ledger behind a played run. */
  lemma {:induction false} PlayIsRun(g: Stage, moves: seq<Move>) returns (ops: seq<History.Op>)
    requires Ready(g)
    ensures CollectorRuns.Keeps(g.zones, ops, Play(g, moves).book, false)
  {
    if moves == [] {
      ops := [];
    } else {
      ops := PlayIsRun(g, moves[..|moves| - 1]);
      ops := MoveKeeps(g, Play(g, moves[..|moves| - 1]), moves[|moves| - 1], ops);
    }
  }

  lemma MoveKeeps(g: Stage, s: Scene, a: Move, ops: seq<History.Op>) returns (all: seq<History.Op>)
    requires Ready(g) && CollectorRuns.Keeps(g.zones, ops, s.book, false)
    ensures CollectorRuns.Keeps(g.zones, all, Do(g, s, a).book, false)
  {
    all := ops;
    match a {
      case Turn(look, disk) =>
        var p := PollTail(g.tail, s.memory, look);
        var b := BatchOf(g, p, look.now).(status := Some(StatusAfter(s.status, p)));
        CollectorRuns.TellerKeeps(g.zones, g.teller, s.book, b, disk, ops, false);
        all := ops + [CollectorRuns.OpOf(s.book, b, disk)];
      case Reopen =>
      case Retire(op) =>
        if !op.IngestOp? {
          CollectorRuns.OpKeeps(g.zones, ops, op, s.book, Do(g, s, a).book, false);
          all := ops + [op];
        }
    }
  }

  /** The events a turn sends lie at or above the watermark for details. */
  ghost predicate Above(g: Stage, s: Scene, a: Move) {
    a.Turn? && !PollTail(g.tail, s.memory, a.look).failed ==>
      forall e :: e in PollTail(g.tail, s.memory, a.look).events ==> Cut(s.book.tables.detailCutoff) <= UnixMilli(e.at)
  }

  ghost predicate AllAbove(g: Stage, moves: seq<Move>)
    requires Ready(g)
  {
    moves == [] ||
    (AllAbove(g, moves[..|moves| - 1]) && Above(g, Play(g, moves[..|moves| - 1]), moves[|moves| - 1]))
  }

  lemma {:induction false} KeptAll(events: seq<Event>, cut: int)
    requires forall e :: e in events ==> cut <= UnixMilli(e.at)
    ensures Kept(events, cut) == |events|
  {
    if events != [] {
      KeptAll(events[1..], cut);
    }
  }

  lemma TurnBrings(g: Stage, s: Scene, acts: seq<Act>, look: Look, disk: Collector.Disk)
    requires Ready(g) && Mirrors(g, s, Run(g.tail, acts)) && Above(g, s, Turn(look, disk))
    ensures var act := Poll(look, OfferOf(g, s, look, disk).1.None?);
            |PassOf(Run(g.tail, acts + [act]).entries).events| == |PassOf(Run(g.tail, acts).entries).events| + Brought(g, s, Turn(look, disk))
  {
    RunMore(g.tail, acts, Poll(look, OfferOf(g, s, look, disk).1.None?));
    TurnAddsEvents(g.tail, Run(g.tail, acts), look);
    if !PollTail(g.tail, s.memory, look).failed { KeptAll(PollTail(g.tail, s.memory, look).events, Cut(s.book.tables.detailCutoff)); }
  }

  lemma MoveCounts(g: Stage, s: Scene, acts: seq<Act>, a: Move)
    requires Ready(g) && Mirrors(g, s, Run(g.tail, acts)) && Above(g, s, a)
    ensures |PassOf(Run(g.tail, acts + Fate(g, s, a)).entries).events| == |PassOf(Run(g.tail, acts).entries).events| + Brought(g, s, a)
  {
    match a
    case Turn(look, disk) => TurnBrings(g, s, acts, look, disk);
    case Reopen => RunMore(g.tail, acts, Restart);
    case Retire(_) => assert acts + [] == acts;
  }

  lemma {:induction false} CountedAll(g: Stage, moves: seq<Move>)
    requires Ready(g) && AllAbove(g, moves)
    ensures Counted(g, moves) == |PassOf(Run(g.tail, Acts(g, moves)).entries).events|
  {
    if moves != [] {
      var before := moves[..|moves| - 1];
      CountedAll(g, before);
      PlayIsTail(g, before);
      MoveCounts(g, Play(g, before), Acts(g, before), moves[|moves| - 1]);
    }
  }

  /** The rows of the source count the committed events, each once, whatever fails, restarts
      or is removed on the way. */
  lemma TableCountsEvents(g: Stage, moves: seq<Move>, days: Grid, f: History.Filter)
    requires Ready(g) && Injective(g.tail.naming) && AsksEvents(f, g.config.id) && AllAbove(g, moves)
    requires Regular(days) && History.Aligned(days, f) && History.Pinned(g.zones, Play(g, moves).book.tables, days)
    requires History.Retained(Play(g, moves).book.tables, f)
    requires forall o :: o in Play(g, moves).book.history && f.keep(o.source, o.dims) ==> Covers(f, o)
    ensures History.SumRows(Play(g, moves).book.tables.metrics, f) == |PassOf(Run(g.tail, Acts(g, moves)).entries).events|
  {
    var ops := PlayIsRun(g, moves);
    LedgerConserves(g.zones, ops, days, f);
    LedgerCountsEvents(g, moves, f);
    CountedAll(g, moves);
  }

  /** From the log to the table: on a file that only grows, when reads only ever fail at a
      poll's first byte, the rows count exactly the accepted lines between the point where
      tailing began and the checkpoint the ledger holds, each once. */
  lemma TableCountsLines(g: Stage, moves: seq<Move>, identity: string, days: Grid, f: History.Filter)
    requires Ready(g) && Injective(g.tail.naming) && AsksEvents(f, g.config.id) && AllAbove(g, moves)
    requires AppendOnly(identity, Acts(g, moves)) && AllHarmless(g.tail, Acts(g, moves)) && Run(g.tail, Acts(g, moves)).entries != []
    requires Regular(days) && History.Aligned(days, f) && History.Pinned(g.zones, Play(g, moves).book.tables, days)
    requires History.Retained(Play(g, moves).book.tables, f)
    requires forall o :: o in Play(g, moves).book.history && f.keep(o.source, o.dims) ==> Covers(f, o)
    ensures var es := Run(g.tail, Acts(g, moves)).entries;
            var last := es[|es| - 1];
            && From(es[0]) <= Until(last) <= |last.begin.text|
            && Restored(g, Play(g, moves).book.tables).Some? && Restored(g, Play(g, moves).book.tables).value.offset == Until(last)
            && History.SumRows(Play(g, moves).book.tables.metrics, f) ==
               |OnePass(LogOf(g.tail, last.begin.position), last.begin.text, From(es[0]), Until(last), false, ClockOf(es)).events|
  {
    var acts := Acts(g, moves);
    TableCountsEvents(g, moves, days, f);
    AppendedExactlyOnce(g.tail, identity, acts);
    PlayIsTail(g, moves);
    RunUnbroken(g.tail, acts);
    HarmlessNeverLoses(g.tail, acts);
    RunFollows(g.tail, identity, acts);
  }
}
