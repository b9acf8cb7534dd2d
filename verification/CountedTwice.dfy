/** A line that the table counts twice: a failing read of a log that is only appended to, taken
    through a ledger that refuses nothing and removes nothing. */
module CountedTwice {
  import opened Wrappers
  import opened Clock
  import opened Calendar
  import opened Ledger
  import opened Rollup
  import opened SourceId
  import opened Lines
  import opened Tail
  import opened TailRuns
  import opened Appending
  import opened Accepting
  import opened TailLedger
  import History
  import Coverage
  import Collector

  // ---------- a ledger that refuses nothing ----------

  /** A source the ledger takes batches of, in a zone it knows. */
  ghost predicate Usable(g: Stage) {
    && SafeName(g.config.id) && 0 < |g.config.kind| <= 64
    && (if g.config.timezone == "" then DEFAULT_TIMEZONE else g.config.timezone) in g.zones
  }

  /** The position is not too long for a checkpoint. */
  predicate FitsCheckpoint(g: Stage, p: Position) { |g.render(p)| <= 1048576 }

  /** Nothing is recorded that the source's own batches would contradict. */
  predicate Bound(c: Collector.Config, t: Tables) {
    && (t.timezone.Some? ==> t.timezone.value == if c.timezone == "" then DEFAULT_TIMEZONE else c.timezone)
    && t.sources.Keys <= {c.id}
    && (c.id in t.sources ==> t.sources[c.id].kind == c.kind && t.sources[c.id].scope == c.scope && t.sources[c.id].identity in {"", c.fingerprint})
  }

  /** Room for n more events, and no retention yet. */
  predicate Quiet(c: Collector.Config, k: Book, n: nat) {
    && Bound(c, k.tables) && HasRoom(k.tables.metrics, n) && !k.pressure
    && k.tables.detailCutoff.None? && k.tables.minuteCutoff.None? && k.tables.dayCutoff.None?
  }

  predicate Of(c: Collector.Config, b: Batch) {
    && b.sourceId == c.id && b.kind == c.kind && b.scope == c.scope && b.timezone == c.timezone && !b.compact
    && b.source == Some(SourceMeta(c.id, c.kind, c.scope, c.fingerprint))
  }

  lemma BoundBinds(c: Collector.Config, t: Tables, b: Batch)
    requires Bound(c, t) && Of(c, b)
    ensures Bind(t, b).Ok? && Bound(c, Bind(t, b).value)
  {
    assert c.id !in t.sources ==> t.sources.Keys == {};
  }

  lemma TransactBound(days: Grid, c: Collector.Config, t: Tables, b: Batch)
    requires Regular(days) && Bound(c, t) && Of(c, b) && Transact(days, t, b).Ok?
    ensures Bound(c, Transact(days, t, b).value.tables)
  {
    BoundBinds(c, t, b);
    History.ObserveFrame(days, t, b);
    var tx := Observe(days, t, b).value;
    assert Bound(c, tx.tables);
    FinishBound(days, c, tx, b, DropsOf(t, b.sourceId));
  }

  lemma FinishBound(days: Grid, c: Collector.Config, tx: Tx, b: Batch, drops: int)
    requires Regular(days) && Bound(c, tx.tables) && b.sourceId in tx.tables.sources && Finish(days, tx, b, drops).Ok?
    ensures Bound(c, Finish(days, tx, b, drops).value.tables)
  {}

  /** What is covered moves only with a batch that covers. */
  lemma TransactCovers(days: Grid, t: Tables, b: Batch)
    requires Regular(days) && Transact(days, t, b).Ok? && b.coverageStart == ZERO_TIME
    ensures Coverage.CoveredTo(Transact(days, t, b).value.tables, b.sourceId) == Coverage.CoveredTo(t, b.sourceId)
  {
    var tx := Observe(days, t, b).value;
    Coverage.ObserveCovers(days, t, b);
    Coverage.FinishCovers(days, tx, b, DropsOf(t, b.sourceId));
  }

  /** All observations are events of one instant. */
  predicate AllAt(h: seq<Observation>, at: Time) { forall i :: 0 <= i < |h| ==> h[i].EventSeen? && h[i].at == at }

  predicate EventsAt(events: seq<Event>, at: Time) { forall i :: 0 <= i < |events| ==> events[i].at == at }

  lemma {:induction false} EventsTakenAt(days: Grid, tx: Tx, source: string, events: seq<Event>, at: Time)
    requires Regular(days) && AddEvents(days, tx, source, events).Ok? && AllAt(tx.accepted, at) && EventsAt(events, at)
    ensures AllAt(AddEvents(days, tx, source, events).value.accepted, at)
    decreases |events|
  {
    if events != [] {
      EventsTakenAt(days, AddEvent(days, tx, source, events[0]).value, source, events[1..], at);
    }
  }

  lemma TransactAt(days: Grid, t: Tables, b: Batch, at: Time)
    requires Regular(days) && Transact(days, t, b).Ok? && b.deltas == [] && EventsAt(b.events, at)
    ensures AllAt(Transact(days, t, b).value.accepted, at)
  {
    EventsTakenAt(days, Tx(Bind(t, b).value, 0, []), b.sourceId, b.events, at);
    History.FinishFrame(days, Observe(days, t, b).value, b, DropsOf(t, b.sourceId));
  }

  lemma TransactQuiet(days: Grid, c: Collector.Config, k: Book, b: Batch, n: nat)
    requires Regular(days) && Of(c, b) && Quiet(c, k, 2 * |b.events| + n) && 2 * |b.events| + n <= MAX_INT64
    requires b.deltas == [] && Single(b.events) && AllValid(b.events) && CoverFits(k.tables, b) && CheckpointFits(b)
    ensures Transact(days, k.tables, b).Ok?
    ensures Quiet(c, k.(tables := Transact(days, k.tables, b).value.tables), n)
  {
    BoundBinds(c, k.tables, b);
    TransactTakesIff(days, k.tables, b, n);
    TransactBound(days, c, k.tables, b);
    History.TransactFrame(days, k.tables, b);
  }

  lemma OfferIsTransact(g: Stage, k: Book, b: Batch)
    requires Ready(g) && Usable(g) && Of(g.config, b) && !k.pressure && b.deltas == [] && |b.events| <= 5000 && b.at != ZERO_TIME
    ensures BatchError(b).None? && ZoneName(b) in g.zones
    ensures var r := Transact(g.zones[ZoneName(b)], k.tables, b);
            r.Ok? ==> g.teller(k, b, Collector.Disk(false, false)) == (Collector.Book(r.value.tables, k.history + r.value.accepted, false), None)
  {
    assert g.teller(k, b, Collector.Disk(false, false)) == Collector.Offer(g.zones, k, b, Collector.Disk(false, false));
  }

  /** What the ledger is after it took the batch. */
  lemma TakesBatch(g: Stage, k: Book, b: Batch, n: nat, at: Time)
    requires Ready(g) && Usable(g) && Of(g.config, b) && Quiet(g.config, k, 2 * |b.events| + n) && 2 * |b.events| + n <= MAX_INT64
    requires b.deltas == [] && Single(b.events) && AllValid(b.events) && EventsAt(b.events, at) && |b.events| <= 5000
    requires b.at != ZERO_TIME && CoverFits(k.tables, b) && CheckpointFits(b) && AllAt(k.history, at)
    ensures var o := g.teller(k, b, Collector.Disk(false, false));
            && o.1.None? && Quiet(g.config, o.0, n) && AllAt(o.0.history, at)
            && (b.coverageStart == ZERO_TIME ==> Coverage.CoveredTo(o.0.tables, g.config.id) == Coverage.CoveredTo(k.tables, g.config.id))
  {
    OfferIsTransact(g, k, b);
    var days := g.zones[ZoneName(b)];
    TransactQuiet(days, g.config, k, b, n);
    TransactAt(days, k.tables, b, at);
    if b.coverageStart == ZERO_TIME { TransactCovers(days, k.tables, b); }
  }

  // ---------- four turns ----------

  function TwiceMoves(line: string, clock: nat -> Time, n: nat): seq<Move> {
    if n == 0 then [] else TwiceMoves(line, clock, n - 1) + [Turn(TwiceLook(line, clock, n - 1), Collector.Disk(false, false))]
  }

  /** The scene after n turns: all of them committed, room for some more events. */
  ghost predicate AtTurn(g: Stage, line: string, clock: nat -> Time, n: nat, room: nat, at: Time)
    requires Ready(g)
  {
    var s := Play(g, TwiceMoves(line, clock, n));
    && Acts(g, TwiceMoves(line, clock, n)) == TwiceRun(line, clock, n)
    && Quiet(g.config, s.book, room) && AllAt(s.book.history, at) && AllAbove(g, TwiceMoves(line, clock, n))
  }

  /** What the n-th poll yields, in the tail's own run. */
  function YieldAt(c: Config, line: string, clock: nat -> Time, n: nat): Polled {
    PollTail(c, Run(c, TwiceRun(line, clock, n)).memory, TwiceLook(line, clock, n))
  }

  function SentEvents(p: Polled): seq<Event> { if p.failed then [] else p.events }

  /** The coverage a poll claims is none, or new and not too long. */
  predicate CoversNew(c: Collector.Config, k: Book, p: Polled, now: Time) {
    p.failed || p.coverage == ZERO_TIME ||
    (Coverage.CoveredTo(k.tables, c.id) == 0 && 0 <= p.coverage && now - p.coverage <= MAX_SPAN)
  }

  lemma TurnTaken(g: Stage, s: Scene, look: Look, room: nat, at: Time)
    requires Ready(g) && Usable(g) && look.now != ZERO_TIME && room <= MAX_INT64 - 10000 && AllAt(s.book.history, at)
    requires var p := PollTail(g.tail, s.memory, look);
             && AllValid(SentEvents(p)) && EventsAt(SentEvents(p), at) && |SentEvents(p)| <= 5000
             && Quiet(g.config, s.book, 2 * |SentEvents(p)| + room) && CoversNew(g.config, s.book, p, look.now)
             && FitsCheckpoint(g, p.memory.position)
    ensures var d := Collector.Disk(false, false);
            var k := Turned(g, s, look, d).book;
            && OfferOf(g, s, look, d).1.None? && Quiet(g.config, k, room) && AllAt(k.history, at)
            && (PollTail(g.tail, s.memory, look).failed || PollTail(g.tail, s.memory, look).coverage == ZERO_TIME ==>
                  Coverage.CoveredTo(k.tables, g.config.id) == Coverage.CoveredTo(s.book.tables, g.config.id))
  {
    var p := PollTail(g.tail, s.memory, look);
    var b := BatchOf(g, p, look.now).(status := Some(StatusAfter(s.status, p)));
    PollSingle(g.tail, s.memory, look);
    TakesBatch(g, s.book, b, room, at);
  }

  lemma NextTurn(g: Stage, line: string, clock: nat -> Time, n: nat, room: nat, at: Time)
    requires Ready(g) && Usable(g) && clock(n) != ZERO_TIME && room <= MAX_INT64 - 10000 && 0 <= at
    requires var p := YieldAt(g.tail, line, clock, n);
             && AllValid(SentEvents(p)) && EventsAt(SentEvents(p), at) && |SentEvents(p)| <= 5000
             && AtTurn(g, line, clock, n, 2 * |SentEvents(p)| + room, at)
             && CoversNew(g.config, Play(g, TwiceMoves(line, clock, n)).book, p, clock(n))
             && FitsCheckpoint(g, p.memory.position)
    ensures AtTurn(g, line, clock, n + 1, room, at)
    ensures var p := YieldAt(g.tail, line, clock, n);
            p.failed || p.coverage == ZERO_TIME ==>
              Coverage.CoveredTo(Play(g, TwiceMoves(line, clock, n + 1)).book.tables, g.config.id) ==
              Coverage.CoveredTo(Play(g, TwiceMoves(line, clock, n)).book.tables, g.config.id)
  {
    var moves := TwiceMoves(line, clock, n);
    PlayIsTail(g, moves);
    TurnTaken(g, Play(g, moves), TwiceLook(line, clock, n), room, at);
    PlayNext(g, line, clock, n);
    AboveNext(g, line, clock, n, at);
  }

  lemma SentAbove(g: Stage, s: Scene, look: Look, d: Collector.Disk, at: Time)
    requires 0 <= at && s.book.tables.detailCutoff.None? && EventsAt(SentEvents(PollTail(g.tail, s.memory, look)), at)
    ensures Above(g, s, Turn(look, d))
  {}

  lemma AboveNext(g: Stage, line: string, clock: nat -> Time, n: nat, at: Time)
    requires Ready(g) && AllAbove(g, TwiceMoves(line, clock, n)) && 0 <= at
    requires var s := Play(g, TwiceMoves(line, clock, n));
             s.book.tables.detailCutoff.None? && EventsAt(SentEvents(PollTail(g.tail, s.memory, TwiceLook(line, clock, n))), at)
    ensures AllAbove(g, TwiceMoves(line, clock, n + 1))
  {
    var moves, more := TwiceMoves(line, clock, n), TwiceMoves(line, clock, n + 1);
    assert more[..|more| - 1] == moves;
    SentAbove(g, Play(g, moves), TwiceLook(line, clock, n), Collector.Disk(false, false), at);
  }

  /** One turn more. */
  lemma PlayNext(g: Stage, line: string, clock: nat -> Time, n: nat)
    requires Ready(g)
    ensures var s := Play(g, TwiceMoves(line, clock, n));
            var look, d := TwiceLook(line, clock, n), Collector.Disk(false, false);
            && Play(g, TwiceMoves(line, clock, n + 1)) == Turned(g, s, look, d)
            && Acts(g, TwiceMoves(line, clock, n + 1)) == Acts(g, TwiceMoves(line, clock, n)) + [Poll(look, OfferOf(g, s, look, d).1.None?)]
  {
    assert TwiceMoves(line, clock, n + 1)[..|TwiceMoves(line, clock, n)|] == TwiceMoves(line, clock, n);
  }

  // ---------- what the polls yield ----------

  function LineEvent(c: Config, generation: nat, p: Parsed): Event {
    Event(EventId(LogOf(c, Position("f", 0, "", generation, false)), 0, p.at), p.at, p.dims, 1)
  }

  lemma YieldsEmpty(c: Config, line: string, clock: nat -> Time)
    ensures YieldAt(c, line, clock, 0) == Polled(Empty(clock(0)), [], 0, 0, ZERO_TIME, false)
  {
    OpensEmpty(c, TwiceLook(line, clock, 0));
  }

  lemma YieldsLine(c: Config, line: string, clock: nat -> Time, p: Parsed)
    requires Says(c, line, p, clock(1))
    ensures var y := YieldAt(c, line, clock, 1);
            !y.failed && y.events == [LineEvent(c, 0, p)] && y.coverage == CoverageStart(c, Empty(clock(0)), 0, clock(1))
  {
    FirstPoll(c, line, clock);
    ReadsLine(c, line, TwiceLook(line, clock, 1), p, clock(0));
  }

  lemma YieldsFailure(c: Config, line: string, clock: nat -> Time, p: Parsed)
    requires (forall s :: c.naming.digest(s) != "") && Says(c, line, p, clock(1))
    ensures YieldAt(c, line, clock, 2).failed
  {
    TwoPolls(c, line, clock, p);
    FailsLater(c, Run(c, TwiceRun(line, clock, 2)).memory, line, TwiceLook(line, clock, 2));
  }

  /** The other two lines say nothing. */
  predicate OnlyFirst(c: Config) { c.parse("b\n").None? && c.parse("c\n").None? }

  lemma ShortLines(line: string, buffer: Buffer)
    requires IsLine(line, buffer)
    ensures var text := Grows(line);
            && LineAt(text, 0, |line|) && LineAt(text, |line|, 2) && LineAt(text, |line| + 2, 2)
            && text[|line|..|line| + 2] == "b\n" && text[|line| + 2..|line| + 4] == "c\n" && |text| == |line| + 4
  {}

  lemma ShortVerdicts(c: Config, log: Log, line: string, now: Time, p: Parsed)
    requires Says(c, line, p, now) && OnlyFirst(c) && log == LogOf(c, Position("f", 0, "", 1, false))
    ensures |Grows(line)| == |line| + 4
    ensures Verdict(log, Grows(line), 0, |line|, now).events == [LineEvent(c, 1, p)]
    ensures Verdict(log, Grows(line), |line|, |line| + 2, now).events == []
    ensures Verdict(log, Grows(line), |line| + 2, |line| + 4, now).events == []
  {
    ShortLines(line, c.buffer);
    assert Grows(line)[0..|line|] == line;
  }

  /** scan is the read loop over this text, by another name. */
  ghost predicate Scans(log: Log, text: string, now: Time, fails: nat -> bool, scan: (nat, nat) -> Scanned) {
    forall at: nat, found: nat {:trigger Scan(log, text, 0, at, |text|, false, found, now, fails)} ::
      at <= |text| ==> scan(at, found) == Scan(log, text, 0, at, |text|, false, found, now, fails)
  }

  lemma ScansLine(log: Log, text: string, at: nat, n: nat, found: nat, now: Time, fails: nat -> bool, scan: (nat, nat) -> Scanned)
    requires LineAt(text, at, n) && n <= log.buffer && Room(0, at, found) && !fails(at) && Scans(log, text, now, fails, scan)
    ensures var p := Verdict(log, text, at, at + n, now);
            var s, rest := scan(at, found), scan(at + n, found + |p.events|);
            s.failed == rest.failed && s.offset == rest.offset && s.pass.events == p.events + rest.pass.events
  {
    OneLine(log, text, 0, at, n, found, now, fails);
  }

  lemma ScansEnd(log: Log, text: string, found: nat, now: Time, fails: nat -> bool, scan: (nat, nat) -> Scanned)
    requires Room(0, |text|, found) && !fails(|text|) && Scans(log, text, now, fails, scan)
    ensures scan(|text|, found) == Scanned(|text|, false, Pass([], 0), |text|, false)
  {
    NoLine(log, text, 0, found, now, fails);
  }

  /** Three lines, of which the first says something. */
  lemma ScansThree(log: Log, text: string, n: nat, e: Event, now: Time, fails: nat -> bool, scan: (nat, nat) -> Scanned)
    requires LineAt(text, 0, n) && LineAt(text, n, 2) && LineAt(text, n + 2, 2) && |text| == n + 4 && n < 1000
    requires n <= log.buffer && 2 <= log.buffer && (forall i :: !fails(i)) && Scans(log, text, now, fails, scan)
    requires Verdict(log, text, 0, n, now).events == [e]
    requires Verdict(log, text, n, n + 2, now).events == [] && Verdict(log, text, n + 2, n + 4, now).events == []
    ensures !scan(0, 0).failed && scan(0, 0).offset == |text| && scan(0, 0).pass.events == [e]
  {
    ScansLine(log, text, 0, n, 0, now, fails, scan);
    ScansLine(log, text, n, 2, 1, now, fails, scan);
    ScansLine(log, text, n + 2, 2, 1, now, fails, scan);
    ScansEnd(log, text, 1, now, fails, scan);
  }

  lemma ThreeLines(log: Log, text: string, n: nat, e: Event, now: Time, fails: nat -> bool)
    requires LineAt(text, 0, n) && LineAt(text, n, 2) && LineAt(text, n + 2, 2) && |text| == n + 4 && n < 1000
    requires n <= log.buffer && 2 <= log.buffer && forall i :: !fails(i)
    requires Verdict(log, text, 0, n, now).events == [e]
    requires Verdict(log, text, n, n + 2, now).events == [] && Verdict(log, text, n + 2, n + 4, now).events == []
    ensures var s := Scan(log, text, 0, 0, |text|, false, 0, now, fails); !s.failed && s.offset == |text| && s.pass.events == [e]
  {
    var scan: (nat, nat) -> Scanned :=
      (at: nat, found: nat) => if at <= |text| then Scan(log, text, 0, at, |text|, false, found, now, fails) else Scanned(0, false, Pass([], 0), 0, false);
    ScansThree(log, text, n, e, now, fails, scan);
  }

  lemma ReadsAll(c: Config, b: Begin, line: string, look: Look, p: Parsed)
    requires Says(c, line, p, look.now) && OnlyFirst(c) && forall i :: !look.fails(i)
    requires b == Begin(Position("f", 0, "", 1, false), Grows(line), 1)
    ensures var s := Swept(c, b, look); !s.failed && s.offset == |b.text| && s.pass.events == [LineEvent(c, 1, p)]
  {
    var log := LogOf(c, b.position);
    ShortLines(line, c.buffer);
    ShortVerdicts(c, log, line, look.now, p);
    ThreeLines(log, b.text, |line|, LineEvent(c, 1, p), look.now, look.fails);
  }

  lemma YieldsAgain(c: Config, line: string, clock: nat -> Time, p: Parsed)
    requires Injective(c.naming) && (forall s :: c.naming.digest(s) != "") && Says(c, line, p, clock(1)) && p.at <= clock(3) && OnlyFirst(c)
    ensures var y := YieldAt(c, line, clock, 3); !y.failed && y.events == [LineEvent(c, 1, p)] && y.coverage == ZERO_TIME
  {
    var acts, look := TwiceRun(line, clock, 3), TwiceLook(line, clock, 3);
    TwiceAppends(line, clock, 4);
    ThirdPoll(c, line, clock, p);
    TwoNeverLose(c, line, clock);
    TwiceNext(c, line, clock, 3);
    LostBegins(c, "f", acts, look);
    ReadsAll(c, Begun(c, Run(c, acts).memory, look).value, line, look, p);
  }

  // ---------- the table ----------

  /** A stamped line, a clock that moves on, and a ledger that takes it. */
  ghost predicate Scenario(g: Stage, line: string, clock: nat -> Time, p: Parsed) {
    && Ready(g) && Usable(g) && Injective(g.tail.naming)
    && (forall s {:trigger g.tail.naming.digest(s)} :: g.tail.naming.digest(s) != "")
    && Says(g.tail, line, p, clock(1)) && OnlyFirst(g.tail) && 0 <= p.at && ValidDims(p.dims)
    && |LineEvent(g.tail, 0, p).id| <= 512 && |LineEvent(g.tail, 1, p).id| <= 512
    && (forall n: nat {:trigger YieldAt(g.tail, line, clock, n)} ::
          n < 4 ==> FitsCheckpoint(g, YieldAt(g.tail, line, clock, n).memory.position))
    && 0 <= clock(0) < clock(1) < clock(2) < clock(3) && clock(1) - clock(0) <= MAX_SPAN
  }

  lemma LineEventValid(c: Config, generation: nat, p: Parsed)
    requires 0 <= p.at && ValidDims(p.dims) && 0 < |EventId(LogOf(c, Position("f", 0, "", generation, false)), 0, p.at)| <= 512
    ensures AllValid([LineEvent(c, generation, p)]) && EventsAt([LineEvent(c, generation, p)], p.at)
  {}

  /** What the n-th poll is to yield. */
  predicate Expected(c: Config, clock: nat -> Time, p: Parsed, n: nat, y: Polled) {
    && SentEvents(y) == (if n == 1 then [LineEvent(c, 0, p)] else if n == 3 then [LineEvent(c, 1, p)] else [])
    && (y.failed || y.coverage == ZERO_TIME || (n == 1 && y.coverage == clock(0)))
  }

  lemma YieldsExpected(c: Config, line: string, clock: nat -> Time, p: Parsed, n: nat)
    requires Injective(c.naming) && (forall s :: c.naming.digest(s) != "") && Says(c, line, p, clock(1)) && p.at <= clock(3) && OnlyFirst(c)
    requires n < 4
    ensures Expected(c, clock, p, n, YieldAt(c, line, clock, n))
  {
    if n == 0 { YieldsEmpty(c, line, clock); }
    if n == 1 { YieldsLine(c, line, clock, p); }
    if n == 2 { YieldsFailure(c, line, clock, p); }
    if n == 3 { YieldsAgain(c, line, clock, p); }
  }

  function RoomAfter(n: nat): nat { if n < 2 then 4 else if n < 4 then 2 else 0 }

  /** The events sent are valid, and all of them at the line's instant. */
  lemma SentValid(g: Stage, line: string, clock: nat -> Time, p: Parsed, n: nat, y: Polled)
    requires Scenario(g, line, clock, p) && Expected(g.tail, clock, p, n, y) && n < 4
    ensures AllValid(SentEvents(y)) && EventsAt(SentEvents(y), p.at) && RoomAfter(n) == 2 * |SentEvents(y)| + RoomAfter(n + 1)
  {
    var c := g.tail;
    var generation := if n == 1 then 0 else 1;
    assert c.naming.digest(Encode([c.source, "f", Decimal(generation), Decimal(0), c.naming.stamp(p.at)])) == LineEvent(c, generation, p).id;
    assert 0 < |LineEvent(c, generation, p).id| <= 512;
    LineEventValid(c, generation, p);
  }

  /** All so far is committed, and nothing covered before the second turn. */
  ghost predicate Taken(g: Stage, line: string, clock: nat -> Time, p: Parsed, n: nat)
    requires Ready(g)
  {
    && AtTurn(g, line, clock, n, RoomAfter(n), p.at)
    && (n <= 1 ==> Coverage.CoveredTo(Play(g, TwiceMoves(line, clock, n)).book.tables, g.config.id) == 0)
  }

  lemma TakenAtStart(g: Stage, line: string, clock: nat -> Time, p: Parsed)
    requires Ready(g)
    ensures Taken(g, line, clock, p, 0)
  {
    assert TwiceMoves(line, clock, 0) == [];
  }

  /** The next turn is committed as well, if it yields what it is to yield. */
  lemma TakenNext(g: Stage, line: string, clock: nat -> Time, p: Parsed, n: nat)
    requires Scenario(g, line, clock, p) && n < 4 && Taken(g, line, clock, p, n) && Expected(g.tail, clock, p, n, YieldAt(g.tail, line, clock, n))
    requires 0 <= clock(n) && (n == 1 ==> clock(n) - clock(0) <= MAX_SPAN)
    ensures Taken(g, line, clock, p, n + 1)
  {
    SentValid(g, line, clock, p, n, YieldAt(g.tail, line, clock, n));
    NextTurn(g, line, clock, n, RoomAfter(n + 1), p.at);
  }

  /** Every turn is committed. */
  lemma {:induction false} AllTaken(g: Stage, line: string, clock: nat -> Time, p: Parsed, n: nat)
    requires Scenario(g, line, clock, p) && n <= 4
    ensures Taken(g, line, clock, p, n)
  {
    if n == 0 {
      TakenAtStart(g, line, clock, p);
    } else {
      AllTaken(g, line, clock, p, n - 1);
      YieldsExpected(g.tail, line, clock, p, n - 1);
      TakenNext(g, line, clock, p, n - 1);
    }
  }

  // ---------- two for one ----------

  function CommittedEvents(c: Config, line: string, clock: nat -> Time, n: nat): nat {
    |PassOf(Run(c, TwiceRun(line, clock, n)).entries).events|
  }

  /** The n-th poll commits one event, or none. */
  lemma EventsNext(c: Config, line: string, clock: nat -> Time, p: Parsed, n: nat)
    requires Injective(c.naming) && (forall s :: c.naming.digest(s) != "") && Says(c, line, p, clock(1)) && p.at <= clock(3) && OnlyFirst(c)
    requires n < 4
    ensures CommittedEvents(c, line, clock, n + 1) == CommittedEvents(c, line, clock, n) + if n == 1 || n == 3 then 1 else 0
  {
    YieldsExpected(c, line, clock, p, n);
    TwiceNext(c, line, clock, n);
    TurnAddsEvents(c, Run(c, TwiceRun(line, clock, n)), TwiceLook(line, clock, n));
  }

  /** The committed events, in the run of the tail. */
  lemma TwoEvents(c: Config, line: string, clock: nat -> Time, p: Parsed)
    requires Injective(c.naming) && (forall s :: c.naming.digest(s) != "") && Says(c, line, p, clock(1)) && p.at <= clock(3) && OnlyFirst(c)
    ensures CommittedEvents(c, line, clock, 4) == 2
  {
    NoEventsYet(c, line, clock);
    EventsNext(c, line, clock, p, 0);
    EventsNext(c, line, clock, p, 1);
    EventsNext(c, line, clock, p, 2);
    EventsNext(c, line, clock, p, 3);
  }

  lemma NoEventsYet(c: Config, line: string, clock: nat -> Time)
    ensures CommittedEvents(c, line, clock, 0) == 0
  {
    assert TwiceRun(line, clock, 0) == [];
  }

  lemma HistoryCovered(h: seq<Observation>, at: Time, f: History.Filter)
    requires AllAt(h, at) && f.lo <= at < f.hi
    ensures forall o :: o in h && f.keep(o.source, o.dims) ==> Covers(f, o)
  {}

  /** On a file that is only appended to, with nothing refused and nothing removed, one failing
      read makes the table count its one accepted line as two. */
  lemma TableCountsTwice(g: Stage, line: string, clock: nat -> Time, p: Parsed, days: Grid, f: History.Filter)
    requires Scenario(g, line, clock, p) && AsksEvents(f, g.config.id) && f.lo <= p.at < f.hi
    requires Regular(days) && History.Aligned(days, f) && History.Pinned(g.zones, Play(g, TwiceMoves(line, clock, 4)).book.tables, days)
    ensures AppendOnly("f", Acts(g, TwiceMoves(line, clock, 4)))
    ensures var log := LogOf(g.tail, Position("f", 0, "", 1, false));
            |OnePass(log, Grows(line), 0, |Grows(line)|, false, Always(clock(3))).events| == 1
    ensures History.SumRows(Play(g, TwiceMoves(line, clock, 4)).book.tables.metrics, f) == 2
  {
    var c, moves := g.tail, TwiceMoves(line, clock, 4);
    AllTaken(g, line, clock, p, 4);
    TwiceAppends(line, clock, 4);
    HistoryCovered(Play(g, moves).book.history, p.at, f);
    TableCountsEvents(g, moves, days, f);
    TwoEvents(c, line, clock, p);
    FileHasOne(c, line, TwiceLook(line, clock, 3), p);
  }

  lemma FileHasOne(c: Config, line: string, look: Look, p: Parsed)
    requires Says(c, line, p, look.now) && OnlyFirst(c) && forall i :: !look.fails(i)
    ensures var log := LogOf(c, Position("f", 0, "", 1, false));
            |OnePass(log, Grows(line), 0, |Grows(line)|, false, Always(look.now)).events| == 1
  {
    var b := Begin(Position("f", 0, "", 1, false), Grows(line), 1);
    ReadsAll(c, b, line, look, p);
    ScanIsOnePass(LogOf(c, b.position), b.text, 0, WindowEnd(b), false, look.now, look.fails);
  }
}
