/** A line that stops a log. */
module Blocked {
  import opened Wrappers
  import opened Clock
  import opened Ledger
  import opened Lines
  import opened Tail
  import opened TailRuns
  import opened Appending
  import opened Accepting
  import opened TailLedger
  import Collector

  // The reader takes lines for events that the ledger then refuses as invalid, with all others
  // of the poll, and the position goes back. From then on every poll meets the same line.

  // ---------- one turn ----------

  function First(n: nat, events: seq<Event>): seq<Event> { if |events| > n then events[..n] else events }

  lemma {:induction false} ScanLimit(log: Log, text: string, start: nat, at: nat, end: nat, skipping: bool, n: nat, now: Time, fails: nat -> bool)
    requires start <= at <= end <= |text| && n <= MAX_EVENTS
    ensures n + |Scan(log, text, start, at, end, skipping, n, now, fails).pass.events| <= MAX_EVENTS
    decreases end - at
  {
    if Room(start, at, n) && !fails(at) && !NextSlice(log.buffer, text, at, end).Rest? {
      var p := Found(log, text, at, end, skipping, now);
      ScanNext(log, text, start, at, end, skipping, n, now, fails);
      ScanLimit(log, text, start, Moved(log.buffer, text, at, end), end, NextSlice(log.buffer, text, at, end).Full?, n + |p.events|, now, fails);
    }
  }

  /** Below the limit of events the loop leaves no complete line of its window behind. */
  lemma {:induction false} ScanExhausts(log: Log, text: string, start: nat, at: nat, end: nat, skipping: bool, n: nat, now: Time, fails: nat -> bool)
    requires start <= at <= end <= |text| && end <= start + MAX_POLL
    ensures var s := Scan(log, text, start, at, end, skipping, n, now, fails);
            !s.failed && n + |s.pass.events| < MAX_EVENTS ==> Newline(text, s.offset, end) == end
    decreases end - at
  {
    if Room(start, at, n) && !fails(at) && !NextSlice(log.buffer, text, at, end).Rest? {
      var p := Found(log, text, at, end, skipping, now);
      ScanNext(log, text, start, at, end, skipping, n, now, fails);
      ScanExhausts(log, text, start, Moved(log.buffer, text, at, end), end, NextSlice(log.buffer, text, at, end).Full?, n + |p.events|, now, fails);
    }
  }

  /** The events of the unread window, as one pass over it finds them. */
  function WindowEvents(c: Config, b: Begin, now: Time): seq<Event>
    requires b.position.offset <= |b.text|
  {
    OnePass(LogOf(c, b.position), b.text, b.position.offset, WindowEnd(b), b.position.skipping, Always(now)).events
  }

  /** A poll that does not fail finds the first of them. */
  lemma SweptIsFirst(c: Config, b: Begin, look: Look)
    requires b.position.offset <= |b.text| && !Swept(c, b, look).failed
    ensures Swept(c, b, look).pass.events == First(MAX_EVENTS, WindowEvents(c, b, look.now))
  {
    var log, text, start, end := LogOf(c, b.position), b.text, b.position.offset, WindowEnd(b);
    var s := Swept(c, b, look);
    var clock := Always(look.now);
    ScanIsOnePass(log, text, start, end, b.position.skipping, look.now, look.fails);
    ScanResumable(log, text, start, end, b.position.skipping, look.now, look.fails);
    ScanLimit(log, text, start, start, end, b.position.skipping, 0, look.now, look.fails);
    ScanExhausts(log, text, start, start, end, b.position.skipping, 0, look.now, look.fails);
    PassesJoin(log, text, start, s.offset, end, b.position.skipping, s.skipping, clock);
    if |s.pass.events| < MAX_EVENTS { PassEnds(log, text, s.offset, end, s.skipping, clock); }
  }

  /** Where nothing else hinders the commit, the stored position moves to where the poll came
      exactly when the first events of the unread window, as many as a poll takes, are valid. */
  lemma PositionMovesIff(g: Stage, s: Scene, look: Look, disk: Collector.Disk)
    requires Ready(g) && Begun(g.tail, s.memory, look).Some? && !Breaks(g.tail, Begun(g.tail, s.memory, look).value, look)
    requires var p := PollTail(g.tail, s.memory, look);
             Unhindered(g.zones, s.book, BatchOf(g, p, look.now).(status := Some(StatusAfter(s.status, p))), disk)
    ensures var t' := Turned(g, s, look, disk).book.tables;
            if AllValid(First(MAX_EVENTS, WindowEvents(g.tail, Begun(g.tail, s.memory, look).value, look.now)))
            then Restored(g, t') == Some(PollTail(g.tail, s.memory, look).memory.position)
            else t' == s.book.tables
  {
    var b := Begun(g.tail, s.memory, look).value;
    var p := PollTail(g.tail, s.memory, look);
    var batch := BatchOf(g, p, look.now).(status := Some(StatusAfter(s.status, p)));
    BreaksIff(g.tail, b, look);
    SweptIsFirst(g.tail, b, look);
    TakenIff(g.zones, s.book, batch, disk);
    OfferSaves(g, s.book, batch, disk);
    assert g.teller(s.book, batch, disk) == Collector.Offer(g.zones, s.book, batch, disk);
    assert g.read(g.render(p.memory.position)) == Some(p.memory.position);
  }

  // ---------- whole runs ----------

  /** What no identifier makes a valid event of. */
  predicate NeverValid(q: Parsed) { q.at == ZERO_TIME || !ValidDims(q.dims) }

  /** A pass over a whole line judges it. */
  lemma {:induction false} PassHoldsLine(log: Log, text: string, from: nat, until: nat, skipping: bool, clock: nat -> Time, i: nat, n: nat)
    requires from <= i && LineAt(text, i, n) && i + n <= until <= |text| && n <= log.buffer
    requires if i == from then !skipping else text[i - 1] == '\n'
    ensures var e := Judge(log, text, i, i + n, clock(i)); e.Some? ==> e.value in OnePass(log, text, from, until, skipping, clock).events
    decreases i - from
  {
    if i == from {
      NewlineOfLine(text, i, i + n - 1, until);
      PassLine(log, text, from, until, skipping, clock);
    } else {
      NewlineAfter(text, from, i - 1, until);
      PassLine(log, text, from, until, skipping, clock);
      PassHoldsLine(log, text, Newline(text, from, until) + 1, until, false, clock, i, n);
    }
  }

  /** A stretch that can be taken up again does not end in a line that fits the buffer. */
  lemma StopsAround(buffer: Buffer, text: string, from: nat, skipping: bool, mid: nat, inside: bool, i: nat, n: nat)
    requires Resumable(buffer, text, from, skipping, mid, inside) && from <= i <= mid && n <= buffer
    requires (i > 0 ==> text[i - 1] == '\n') && (i == from ==> !skipping)
    requires forall j :: i <= j < i + n - 1 && j < mid ==> text[j] != '\n'
    ensures mid == i || i + n <= mid
    ensures mid == i ==> !inside
  {
    if inside {
      if from < i { NewlineAfter(text, from, i - 1, mid); }
      if j: nat :| LineStart(text, from, j) && OversizedFrom(buffer, text, j, mid) {
        if j < i { NewlineAfter(text, j, i - 1, mid); }
      }
    }
  }

  /** A complete line the reader takes for an event that is never valid. */
  predicate BadLine(c: Config, text: string, i: nat, n: nat, q: Parsed) {
    && LineAt(text, i, n) && n <= c.buffer && (i > 0 ==> text[i - 1] == '\n')
    && c.parse(text[i..i + n]) == Some(q) && NeverValid(q)
  }

  /** The entry was accepted, at an instant at which the line's stamp was not in the future. */
  predicate Accepted(e: Entry, q: Parsed) { AllValid(e.scanned.pass.events) && q.at <= e.now + 60_000_000_000 }

  predicate AllAccepted(es: seq<Entry>, q: Parsed) { forall k :: 0 <= k < |es| ==> Accepted(es[k], q) }

  /** A poll that passes the line finds an event that is not valid. */
  lemma PassingIsInvalid(c: Config, e: Entry, text: string, i: nat, n: nat, q: Parsed)
    requires Genuine(c, e) && e.begin.text <= text && BadLine(c, text, i, n, q) && q.at <= e.now + 60_000_000_000
    requires From(e) <= i && (From(e) == i ==> !e.begin.position.skipping) && i + n <= Until(e)
    ensures !AllValid(e.scanned.pass.events)
  {
    var log := LogOf(c, e.begin.position);
    assert e.begin.text[i..i + n] == text[i..i + n];
    PassHoldsLine(log, e.begin.text, From(e), Until(e), e.begin.position.skipping, Always(e.now), i, n);
    var x := Judge(log, e.begin.text, i, i + n, e.now).value;
    assert x in e.scanned.pass.events && !ValidEvent(x);
  }

  /** An accepted poll that began before the line ended before it. */
  lemma EntryStops(c: Config, e: Entry, text: string, i: nat, n: nat, q: Parsed)
    requires Genuine(c, e) && e.begin.text <= text && BadLine(c, text, i, n, q) && Accepted(e, q)
    requires From(e) <= i && (From(e) == i ==> !e.begin.position.skipping)
    ensures Until(e) <= i && (Until(e) == i ==> !e.scanned.skipping)
  {
    if i <= Until(e) {
      StopsAround(c.buffer, e.begin.text, From(e), e.begin.position.skipping, Until(e), e.scanned.skipping, i, n);
      if i + n <= Until(e) { PassingIsInvalid(c, e, text, i, n, q); }
    }
  }

  /** So no accepted poll of a chain passes it. */
  lemma {:induction false} ChainStops(c: Config, es: seq<Entry>, text: string, i: nat, n: nat, q: Parsed)
    requires es != [] && Chained(es) && FirstGeneration(es) && AllGenuine(c, es) && BadLine(c, text, i, n, q) && From(es[0]) <= i
    requires AllAccepted(es, q) && forall k :: 0 <= k < |es| ==> es[k].begin.text <= text
    ensures var last := es[|es| - 1]; Until(last) <= i && (Until(last) == i ==> !last.scanned.skipping)
  {
    var last := es[|es| - 1];
    if |es| > 1 {
      var front := es[..|es| - 1];
      ChainStops(c, front, text, i, n, q);
      assert TakesUp(es[|es| - 2], es[|es| - 1].begin.position);
    }
    EntryStops(c, last, text, i, n, q);
  }

  lemma {:induction false} TakenAreValid(days: Calendar.Grid, tx: Tx, source: string, events: seq<Event>)
    requires Calendar.Regular(days) && AddEvents(days, tx, source, events).Ok?
    ensures AllValid(events)
    decreases |events|
  {
    if events != [] {
      TakenAreValid(days, AddEvent(days, tx, source, events[0]).value, source, events[1..]);
      forall i | 0 <= i < |events| ensures ValidEvent(events[i]) {
        if i > 0 { assert events[1..][i - 1] == events[i]; }
      }
    }
  }

  lemma OfferedAreValid(g: Stage, k: Book, b: Batch, d: Collector.Disk)
    requires Ready(g) && g.teller(k, b, d).1.None?
    ensures AllValid(b.events)
  {
    assert g.teller(k, b, d) == Collector.Offer(g.zones, k, b, d);
    TakenAreValid(g.zones[ZoneName(b)], Tx(Bind(k.tables, b).value, 0, []), b.sourceId, b.events);
  }

  predicate Reaches(a: Move, q: Parsed) { a.Turn? ==> q.at <= a.look.now + 60_000_000_000 }

  lemma StepAccepted(c: Config, l: Life, look: Look, q: Parsed)
    requires AllAccepted(l.entries, q) && q.at <= look.now + 60_000_000_000
    requires !PollTail(c, l.memory, look).failed ==> AllValid(PollTail(c, l.memory, look).events)
    ensures AllAccepted(Step(c, l, Poll(look, true)).entries, q)
  {}

  lemma TurnAccepted(g: Stage, s: Scene, acts: seq<Act>, look: Look, disk: Collector.Disk, q: Parsed)
    requires Ready(g) && Mirrors(g, s, Run(g.tail, acts)) && AllAccepted(Run(g.tail, acts).entries, q) && q.at <= look.now + 60_000_000_000
    ensures AllAccepted(Run(g.tail, acts + Fate(g, s, Turn(look, disk))).entries, q)
  {
    var act := Poll(look, OfferOf(g, s, look, disk).1.None?);
    var p := PollTail(g.tail, s.memory, look);
    RunMore(g.tail, acts, act);
    if act.committed {
      OfferedAreValid(g, s.book, BatchOf(g, p, look.now).(status := Some(StatusAfter(s.status, p))), disk);
      StepAccepted(g.tail, Run(g.tail, acts), look, q);
    }
  }

  lemma MoveAccepted(g: Stage, s: Scene, acts: seq<Act>, a: Move, q: Parsed)
    requires Ready(g) && Mirrors(g, s, Run(g.tail, acts)) && Reaches(a, q) && AllAccepted(Run(g.tail, acts).entries, q)
    ensures AllAccepted(Run(g.tail, acts + Fate(g, s, a)).entries, q)
  {
    match a
    case Turn(look, disk) => TurnAccepted(g, s, acts, look, disk, q);
    case Reopen => RunMore(g.tail, acts, Restart);
    case Retire(_) => assert acts + [] == acts;
  }

  lemma {:induction false} RunAccepted(g: Stage, moves: seq<Move>, q: Parsed)
    requires Ready(g) && forall i :: 0 <= i < |moves| ==> Reaches(moves[i], q)
    ensures AllAccepted(Run(g.tail, Acts(g, moves)).entries, q)
  {
    if moves != [] {
      var before := moves[..|moves| - 1];
      RunAccepted(g, before, q);
      PlayIsTail(g, before);
      MoveAccepted(g, Play(g, before), Acts(g, before), moves[|moves| - 1], q);
    }
  }

  /** On a file that only grows, when reads only ever fail at a poll's first byte: the stored
      position never passes a line the ledger refuses, in any run, through refused commits,
      restarts and retention. */
  lemma BadLineBlocks(g: Stage, moves: seq<Move>, identity: string, i: nat, n: nat, q: Parsed)
    requires Ready(g) && AppendOnly(identity, Acts(g, moves)) && AllHarmless(g.tail, Acts(g, moves))
    requires BadLine(g.tail, LastText(Acts(g, moves)), i, n, q) && forall k :: 0 <= k < |moves| ==> Reaches(moves[k], q)
    requires Run(g.tail, Acts(g, moves)).entries != [] && From(Run(g.tail, Acts(g, moves)).entries[0]) <= i
    ensures Restored(g, Play(g, moves).book.tables).Some? && Restored(g, Play(g, moves).book.tables).value.offset <= i
  {
    var acts := Acts(g, moves);
    RunAccepted(g, moves, q);
    PlayIsTail(g, moves);
    RunUnbroken(g.tail, acts);
    RunIsGenuine(g.tail, acts);
    HarmlessNeverLoses(g.tail, acts);
    RunFollows(g.tail, identity, acts);
    ChainStops(g.tail, Run(g.tail, acts).entries, LastText(acts), i, n, q);
  }
}
