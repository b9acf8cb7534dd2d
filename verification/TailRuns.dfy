/** What following a log adds up to over whole runs of polls, refused commits, failing reads,
    restarts, rotations and truncations. */
module TailRuns {
  import opened Wrappers
  import opened Clock
  import opened Ledger
  import opened SourceId
  import opened Lines
  import opened Tail

  /** A poll with what became of its batch, or a restart of the collector. */
  datatype Act = Poll(look: Look, committed: bool) | Restart

  /** A poll whose events were committed together with its position. */
  datatype Entry = Entry(begin: Begin, scanned: Scanned, now: Time)

  /** The tail in memory, the committed position, and every committed poll. */
  datatype Life = Life(memory: Memory, saved: Option<Position>, entries: seq<Entry>)

  function Fresh(saved: Option<Position>): Memory {
    Memory(false, if saved.Some? then saved.value else Position("", 0, "", 0, false), saved.Some?, ZERO_TIME)
  }

  /** After a refused commit the tail stands where it stood before the poll, file closed. */
  function RolledBack(m: Memory): Memory { Memory(false, m.position, m.restored, ZERO_TIME) }

  /** A failed poll sends an empty batch: its commit keeps whatever the loop had advanced. */
  function Step(c: Config, l: Life, a: Act): Life {
    match a
    case Restart => l.(memory := Fresh(l.saved))
    case Poll(look, committed) =>
      var p := PollTail(c, l.memory, look);
      if !committed then l.(memory := RolledBack(l.memory))
      else if p.failed then l.(memory := p.memory.(last := ZERO_TIME))
      else
        var b := Begun(c, l.memory, look).value;
        Life(p.memory, Some(p.memory.position), l.entries + [Entry(b, Swept(c, b, look), look.now)])
  }

  function Run(c: Config, acts: seq<Act>): Life {
    if acts == [] then Life(Fresh(None), None, []) else Step(c, Run(c, acts[..|acts| - 1]), acts[|acts| - 1])
  }

  function Generation(e: Entry): nat { e.begin.position.generation }

  function From(e: Entry): nat { e.begin.position.offset }

  function Until(e: Entry): nat { e.scanned.offset }

  // ---------- at most once ----------

  /** Everything read by the entry lies before the position. */
  predicate Past(e: Entry, p: Position) {
    Generation(e) < p.generation || (Generation(e) == p.generation && Until(e) <= p.offset)
  }

  predicate Precedes(e: Entry, f: Entry) {
    Generation(e) < Generation(f) || (Generation(e) == Generation(f) && Until(e) <= From(f))
  }

  predicate AllPast(es: seq<Entry>, p: Position) { forall i :: 0 <= i < |es| ==> Past(es[i], p) }

  predicate InOrder(es: seq<Entry>) { forall i, j :: 0 <= i < j < |es| ==> Precedes(es[i], es[j]) }

  predicate Advancing(l: Life) {
    && InOrder(l.entries)
    && (if l.memory.restored then AllPast(l.entries, l.memory.position) else l.entries == [])
    && (if l.saved.Some? then AllPast(l.entries, l.saved.value) else l.entries == [])
    && (l.memory.open ==> l.memory.restored)
  }

  /** Reading starts at the position or in a later generation. */
  predicate NoEarlier(p: Position, q: Position) {
    p.generation < q.generation || (p.generation == q.generation && p.offset <= q.offset)
  }

  lemma BegunNoEarlier(c: Config, m: Memory, look: Look)
    requires Begun(c, m, look).Some? && m.restored
    ensures NoEarlier(m.position, Begun(c, m, look).value.position)
  {}

  lemma PastLater(es: seq<Entry>, p: Position, q: Position)
    requires AllPast(es, p) && NoEarlier(p, q)
    ensures AllPast(es, q)
  {}

  lemma PollAdvances(c: Config, m: Memory, look: Look)
    requires Begun(c, m, look).Some? && (m.open ==> m.restored)
    ensures var b := Begun(c, m, look).value;
            var p := PollTail(c, m, look);
            && NoEarlier(b.position, p.memory.position) && p.memory.restored
            && Past(Entry(b, Swept(c, b, look), look.now), p.memory.position)
  {}

  lemma StepAdvances(c: Config, l: Life, a: Act)
    requires Advancing(l)
    ensures Advancing(Step(c, l, a))
  {
    if a.Poll? && a.committed && Begun(c, l.memory, a.look).Some? {
      var b := Begun(c, l.memory, a.look).value;
      PollAdvances(c, l.memory, a.look);
      if l.memory.restored {
        BegunNoEarlier(c, l.memory, a.look);
        PastLater(l.entries, l.memory.position, b.position);
        PastLater(l.entries, b.position, PollTail(c, l.memory, a.look).memory.position);
      }
    }
  }

  lemma {:induction false} RunAdvances(c: Config, acts: seq<Act>)
    ensures Advancing(Run(c, acts))
  {
    if acts != [] {
      RunAdvances(c, acts[..|acts| - 1]);
      StepAdvances(c, Run(c, acts[..|acts| - 1]), acts[|acts| - 1]);
    }
  }

  ghost predicate Genuine(c: Config, e: Entry) {
    && From(e) <= Until(e) <= |e.begin.text|
    && e.scanned.pass == OnePass(LogOf(c, e.begin.position), e.begin.text, From(e), Until(e), e.begin.position.skipping, Always(e.now))
    && Resumable(c.buffer, e.begin.text, From(e), e.begin.position.skipping, Until(e), e.scanned.skipping)
  }

  lemma SweptIsGenuine(c: Config, b: Begin, look: Look)
    requires b.position.offset <= |b.text|
    ensures Genuine(c, Entry(b, Swept(c, b, look), look.now))
  {
    ScanIsOnePass(LogOf(c, b.position), b.text, b.position.offset, WindowEnd(b), b.position.skipping, look.now, look.fails);
    ScanResumable(LogOf(c, b.position), b.text, b.position.offset, WindowEnd(b), b.position.skipping, look.now, look.fails);
  }

  /** Every committed poll found what one pass over the bytes it consumed finds. */
  lemma {:induction false} RunIsGenuine(c: Config, acts: seq<Act>)
    ensures forall i :: 0 <= i < |Run(c, acts).entries| ==> Genuine(c, Run(c, acts).entries[i])
  {
    if acts != [] {
      RunIsGenuine(c, acts[..|acts| - 1]);
      var l := Run(c, acts[..|acts| - 1]);
      var a := acts[|acts| - 1];
      if a.Poll? && Begun(c, l.memory, a.look).Some? { SweptIsGenuine(c, Begun(c, l.memory, a.look).value, a.look); }
    }
  }

  /** What the polls found together. */
  function PassOf(es: seq<Entry>): Pass {
    if es == [] then Pass([], 0)
    else
      var before := PassOf(es[..|es| - 1]);
      var last := es[|es| - 1].scanned.pass;
      Pass(before.events + last.events, before.dropped + last.dropped)
  }

  predicate DistinctIds(events: seq<Event>) { forall i, j :: 0 <= i < j < |events| ==> events[i].id != events[j].id }

  lemma {:induction false} AscendingDistinct(log: Log, events: seq<Event>, lo: nat, hi: nat)
    requires Injective(log.naming) && Ascending(log, events, lo, hi)
    ensures DistinctIds(events)
  {
    if events != [] {
      var i: nat :| lo <= i < hi && events[0].id == EventId(log, i, events[0].at) && Ascending(log, events[1..], i + 1, hi);
      AscendingDistinct(log, events[1..], i + 1, hi);
      forall k | 0 < k < |events| ensures events[0].id != events[k].id {
        assert events[k] == events[1..][k - 1];
        var j := EventStarts(log, events[1..], i + 1, hi, events[k]);
        if events[0].id == events[k].id { EventIdNames(log, i, events[0].at, log, j, events[k].at); }
      }
      forall k, m | 0 < k < m < |events| ensures events[k].id != events[m].id {
        assert events[k] == events[1..][k - 1] && events[m] == events[1..][m - 1];
      }
    }
  }

  lemma EntryAscends(c: Config, e: Entry)
    requires Genuine(c, e)
    ensures Ascending(LogOf(c, e.begin.position), e.scanned.pass.events, From(e), Until(e))
  {
    PassAscends(LogOf(c, e.begin.position), e.begin.text, From(e), Until(e), e.begin.position.skipping, Always(e.now));
  }

  lemma {:induction false} EventOwner(es: seq<Entry>, x: Event) returns (k: nat)
    requires x in PassOf(es).events
    ensures k < |es| && x in es[k].scanned.pass.events
  {
    if x in es[|es| - 1].scanned.pass.events {
      k := |es| - 1;
    } else {
      k := EventOwner(es[..|es| - 1], x);
    }
  }

  /** Events of polls in order have different identifiers. */
  lemma OrderedDiffer(c: Config, e: Entry, f: Entry, x: Event, y: Event)
    requires Injective(c.naming) && Genuine(c, e) && Genuine(c, f) && Precedes(e, f)
    requires x in e.scanned.pass.events && y in f.scanned.pass.events
    ensures x.id != y.id
  {
    var le, lf := LogOf(c, e.begin.position), LogOf(c, f.begin.position);
    EntryAscends(c, e);
    EntryAscends(c, f);
    var i := EventStarts(le, e.scanned.pass.events, From(e), Until(e), x);
    var j := EventStarts(lf, f.scanned.pass.events, From(f), Until(f), y);
    if x.id == y.id { EventIdNames(le, i, x.at, lf, j, y.at); }
  }

  lemma JoinDistinctIds(a: seq<Event>, b: seq<Event>)
    requires DistinctIds(a) && DistinctIds(b) && forall x, y :: x in a && y in b ==> x.id != y.id
    ensures DistinctIds(a + b)
  {}

  lemma {:induction false} EntriesDistinct(c: Config, es: seq<Entry>)
    requires Injective(c.naming) && InOrder(es) && forall i :: 0 <= i < |es| ==> Genuine(c, es[i])
    ensures DistinctIds(PassOf(es).events)
  {
    if es != [] {
      var front, last := es[..|es| - 1], es[|es| - 1];
      EntriesDistinct(c, front);
      EntryAscends(c, last);
      AscendingDistinct(LogOf(c, last.begin.position), last.scanned.pass.events, From(last), Until(last));
      forall x, y | x in PassOf(front).events && y in last.scanned.pass.events ensures x.id != y.id {
        var k := EventOwner(front, x);
        OrderedDiffer(c, front[k], last, x, y);
      }
      JoinDistinctIds(PassOf(front).events, last.scanned.pass.events);
    }
  }

  /** In every run, whatever fails and whenever the collector restarts, no two committed
      events share an identifier: no place in a generation is ever counted twice. */
  lemma CommittedAtMostOnce(c: Config, acts: seq<Act>)
    requires Injective(c.naming)
    ensures DistinctIds(PassOf(Run(c, acts).entries).events)
  {
    RunAdvances(c, acts);
    RunIsGenuine(c, acts);
    EntriesDistinct(c, Run(c, acts).entries);
  }

  // ---------- exactly once ----------

  /** A failed poll whose status is committed keeps its place if its first read failed. */
  predicate Harmless(c: Config, l: Life, a: Act) {
    a.Poll? && a.committed && PollTail(c, l.memory, a.look).failed ==>
      var b := Begun(c, l.memory, a.look);
      b.Some? ==> a.look.fails(b.value.position.offset)
  }

  predicate AllHarmless(c: Config, acts: seq<Act>) {
    forall i :: 0 <= i < |acts| ==> Harmless(c, Run(c, acts[..i]), acts[i])
  }

  /** The position takes up exactly where the entry stopped, or begins a later generation. */
  predicate TakesUp(e: Entry, p: Position) {
    if Generation(e) < p.generation then p.offset == 0 && !p.skipping
    else Generation(e) == p.generation && e.begin.position.identity == p.identity && Until(e) == p.offset && e.scanned.skipping == p.skipping
  }

  predicate Chained(es: seq<Entry>) {
    && (es != [] ==> !es[0].begin.position.skipping)
    && forall i :: 0 < i < |es| ==> TakesUp(es[i - 1], es[i].begin.position)
  }

  predicate Unbroken(l: Life) {
    && Chained(l.entries)
    && (l.memory.open ==> l.memory.restored)
    && (l.saved.None? ==> l.entries == [])
    && (if l.entries == [] then !l.memory.restored || !l.memory.position.skipping
        else
          var last := l.entries[|l.entries| - 1];
          l.memory.restored && TakesUp(last, l.memory.position) && TakesUp(last, l.saved.value))
    && (l.entries == [] ==> l.saved.None?)
  }

  lemma BegunTakesUp(c: Config, m: Memory, look: Look, e: Entry)
    requires Begun(c, m, look).Some? && m.restored && TakesUp(e, m.position)
    ensures TakesUp(e, Begun(c, m, look).value.position)
  {}

  lemma BegunUnskipping(c: Config, m: Memory, look: Look)
    requires Begun(c, m, look).Some? && (m.restored ==> !m.position.skipping) && (m.open ==> m.restored)
    ensures !Begun(c, m, look).value.position.skipping
  {}

  lemma CommitTakesUp(c: Config, m: Memory, look: Look)
    requires Begun(c, m, look).Some? && !PollTail(c, m, look).failed && (m.open ==> m.restored)
    ensures var b := Begun(c, m, look).value;
            PollTail(c, m, look).memory.restored &&
            TakesUp(Entry(b, Swept(c, b, look), look.now), PollTail(c, m, look).memory.position)
  {}

  /** The first boundary at which reading what the poll begins with fails. */
  function FailurePoint(c: Config, b: Begin, look: Look): (f: Option<nat>)
    requires b.position.offset <= |b.text|
    ensures f.Some? ==> b.position.offset <= f.value <= |b.text|
  {
    FirstFailure(c.buffer, b.text, b.position.offset, WindowEnd(b), look.fails)
  }

  /** The poll gets that far: it is within its bytes, and not behind its last event. */
  predicate Breaks(c: Config, b: Begin, look: Look)
    requires b.position.offset <= |b.text|
  {
    var f := FailurePoint(c, b, look);
    && f.Some? && f.value < b.position.offset + MAX_POLL
    && |OnePass(LogOf(c, b.position), b.text, b.position.offset, f.value, b.position.skipping, Always(look.now)).events| < MAX_EVENTS
  }

  /** A poll fails exactly when it gets to a failing boundary, and stops there. */
  lemma BreaksIff(c: Config, b: Begin, look: Look)
    requires b.position.offset <= |b.text|
    ensures Swept(c, b, look).failed <==> Breaks(c, b, look)
    ensures Swept(c, b, look).failed ==> FailurePoint(c, b, look) == Some(Swept(c, b, look).offset)
  {
    FailsIff(LogOf(c, b.position), b.text, b.position.offset, WindowEnd(b), b.position.skipping, look.now, look.fails);
  }

  lemma {:induction false} StillSkipping(log: Log, text: string, start: nat, end: nat, skipping: bool, now: Time, fails: nat -> bool)
    requires start <= end <= |text|
    ensures fails(start) ==> Scan(log, text, start, start, end, skipping, 0, now, fails).skipping == skipping
  {}

  lemma SweptFails(c: Config, b: Begin, look: Look)
    requires b.position.offset <= |b.text| && Swept(c, b, look).failed
    ensures look.fails(Swept(c, b, look).offset)
    ensures Swept(c, b, look).offset == b.position.offset <==> look.fails(b.position.offset)
    ensures look.fails(b.position.offset) ==> Swept(c, b, look).skipping == b.position.skipping
  {
    BreaksIff(c, b, look);
    StillSkipping(LogOf(c, b.position), b.text, b.position.offset, WindowEnd(b), b.position.skipping, look.now, look.fails);
  }

  /** A harmless failure leaves the position it began with. */
  lemma FailureKeeps(c: Config, m: Memory, look: Look)
    requires Begun(c, m, look).Some? && PollTail(c, m, look).failed && (m.open ==> m.restored)
    requires look.fails(Begun(c, m, look).value.position.offset)
    ensures PollTail(c, m, look).memory.restored && PollTail(c, m, look).memory.position == Begun(c, m, look).value.position
  {
    SweptFails(c, Begun(c, m, look).value, look);
  }

  lemma CommitStep(c: Config, l: Life, a: Act)
    requires Unbroken(l) && a.Poll? && a.committed && !PollTail(c, l.memory, a.look).failed
    ensures Unbroken(Step(c, l, a))
  {
    var b := Begun(c, l.memory, a.look).value;
    CommitTakesUp(c, l.memory, a.look);
    if l.entries == [] {
      BegunUnskipping(c, l.memory, a.look);
    } else {
      BegunTakesUp(c, l.memory, a.look, l.entries[|l.entries| - 1]);
    }
  }

  lemma FailStep(c: Config, l: Life, a: Act)
    requires Unbroken(l) && a.Poll? && a.committed && PollTail(c, l.memory, a.look).failed && Harmless(c, l, a)
    ensures Unbroken(Step(c, l, a))
  {
    if Begun(c, l.memory, a.look).Some? {
      FailureKeeps(c, l.memory, a.look);
      if l.entries == [] {
        BegunUnskipping(c, l.memory, a.look);
      } else {
        BegunTakesUp(c, l.memory, a.look, l.entries[|l.entries| - 1]);
      }
    }
  }

  lemma {:induction false} RunUnbroken(c: Config, acts: seq<Act>)
    requires AllHarmless(c, acts)
    ensures Unbroken(Run(c, acts))
  {
    if acts != [] {
      var before := acts[..|acts| - 1];
      var a := acts[|acts| - 1];
      forall i | 0 <= i < |before| ensures Harmless(c, Run(c, before[..i]), before[i]) {
        assert before[..i] == acts[..i];
      }
      RunUnbroken(c, before);
      var l := Run(c, before);
      assert Harmless(c, l, a);
      if a.Poll? && a.committed {
        if PollTail(c, l.memory, a.look).failed { FailStep(c, l, a); } else { CommitStep(c, l, a); }
      }
    }
  }

  /** Successive committed polls of one generation, of a file that only grew meanwhile. */
  predicate OneGeneration(es: seq<Entry>) {
    && es != []
    && forall i :: 0 < i < |es| ==>
         && TakesUp(es[i - 1], es[i].begin.position) && Generation(es[i - 1]) == Generation(es[i])
         && es[i - 1].begin.text <= es[i].begin.text
  }

  /** The clock of the poll that consumed an offset. */
  function ClockOf(es: seq<Entry>): nat -> Time
    requires es != []
  {
    var last := es[|es| - 1];
    if |es| == 1 then Always(last.now)
    else
      var before := ClockOf(es[..|es| - 1]);
      (i: nat) => if i < From(last) then before(i) else last.now
  }

  lemma ResumesOn(buffer: Buffer, text: string, from: nat, skipping: bool, mid: nat, inside: bool, to: nat, inside': bool)
    requires Resumable(buffer, text, from, skipping, mid, inside) && Resumable(buffer, text, mid, inside, to, inside')
    ensures Resumable(buffer, text, from, skipping, to, inside')
  {
    if inside' {
      if i: nat :| LineStart(text, mid, i) && OversizedFrom(buffer, text, i, to) && (i > mid || (mid > from && text[mid - 1] == '\n')) {
        assert LineStart(text, from, i);
      } else if inside {
        NewlineStops(text, from, mid, to);
        if j: nat :| LineStart(text, from, j) && OversizedFrom(buffer, text, j, mid) {
          NewlineStops(text, j, mid, to);
          assert Newline(text, mid, to) == to ==> OversizedFrom(buffer, text, j, to);
        }
      }
    }
  }

  lemma ResumableKept(buffer: Buffer, text: string, more: string, from: nat, skipping: bool, mid: nat, inside: bool)
    requires Resumable(buffer, text, from, skipping, mid, inside) && text <= more
    ensures Resumable(buffer, more, from, skipping, mid, inside)
  {
    NewlineKept(text, more, from, mid);
    if inside {
      if i: nat :| LineStart(text, from, i) && OversizedFrom(buffer, text, i, mid) {
        NewlineKept(text, more, i, mid);
        assert LineStart(more, from, i) && OversizedFrom(buffer, more, i, mid);
      }
    }
  }

  /** What a block of polls of one generation adds up to. */
  ghost predicate BlockIsOnePass(c: Config, es: seq<Entry>)
    requires es != []
  {
    var first, last := es[0], es[|es| - 1];
    && From(first) <= Until(last) <= |last.begin.text|
    && Resumable(c.buffer, last.begin.text, From(first), first.begin.position.skipping, Until(last), last.scanned.skipping)
    && PassOf(es) == OnePass(LogOf(c, last.begin.position), last.begin.text, From(first), Until(last), first.begin.position.skipping, ClockOf(es))
  }

  lemma LogIsPlace(c: Config, p: Position, q: Position)
    requires p.identity == q.identity && p.generation == q.generation
    ensures LogOf(c, p) == LogOf(c, q)
  {}

  lemma OneEntry(c: Config, e: Entry)
    requires Genuine(c, e)
    ensures BlockIsOnePass(c, [e])
  {
    var p := e.scanned.pass;
    assert [e][..0] == [];
    assert [] + p.events == p.events;
  }

  /** The next poll's text holds the block's pass and, joined to it, its own. */
  lemma BlockGrows(c: Config, es: seq<Entry>)
    requires |es| >= 2 && BlockIsOnePass(c, es[..|es| - 1]) && Genuine(c, es[|es| - 1])
    requires var last, e := es[|es| - 2], es[|es| - 1];
             TakesUp(last, e.begin.position) && Generation(last) == Generation(e) && last.begin.text <= e.begin.text
    ensures BlockIsOnePass(c, es)
  {
    var front := es[..|es| - 1];
    var first, last, e := front[0], front[|front| - 1], es[|es| - 1];
    var log := LogOf(c, e.begin.position);
    var text, from, mid, until := e.begin.text, From(first), From(e), Until(e);
    var skipping, inside := first.begin.position.skipping, e.begin.position.skipping;
    var clock := ClockOf(es);
    LogIsPlace(c, last.begin.position, e.begin.position);
    PassKept(log, last.begin.text, text, from, mid, skipping, ClockOf(front), clock);
    PassKept(log, text, text, mid, until, inside, Always(e.now), clock);
    ResumableKept(c.buffer, last.begin.text, text, from, skipping, mid, inside);
    PassesJoin(log, text, from, mid, until, skipping, inside, clock);
    ResumesOn(c.buffer, text, from, skipping, mid, inside, until, e.scanned.skipping);
  }

  ghost predicate AllGenuine(c: Config, es: seq<Entry>) { forall i :: 0 <= i < |es| ==> Genuine(c, es[i]) }

  lemma {:induction false} BlocksAreOnePass(c: Config, es: seq<Entry>)
    requires OneGeneration(es) && AllGenuine(c, es)
    ensures BlockIsOnePass(c, es)
  {
    if |es| == 1 {
      assert es == [es[0]];
      OneEntry(c, es[0]);
    } else {
      BlocksAreOnePass(c, es[..|es| - 1]);
      assert TakesUp(es[|es| - 2], es[|es| - 1].begin.position);
      BlockGrows(c, es);
    }
  }

  /** The committed polls i up to j are all those so far of one generation. */
  predicate IsBlock(es: seq<Entry>, i: nat, j: nat) {
    && i < j <= |es|
    && (forall k :: i <= k < j ==> Generation(es[k]) == Generation(es[i]))
    && (i > 0 ==> Generation(es[i - 1]) != Generation(es[i]))
  }

  /** The file was only appended to between those polls. */
  predicate OnlyGrows(es: seq<Entry>, i: nat, j: nat)
    requires j <= |es|
  {
    forall k :: i < k < j ==> es[k - 1].begin.text <= es[k].begin.text
  }

  lemma BlockIsOneGeneration(es: seq<Entry>, i: nat, j: nat)
    requires Chained(es) && IsBlock(es, i, j) && OnlyGrows(es, i, j)
    ensures OneGeneration(es[i..j])
    ensures !es[i].begin.position.skipping && (i > 0 ==> From(es[i]) == 0)
  {
    var block := es[i..j];
    forall k | 0 < k < |block|
      ensures TakesUp(block[k - 1], block[k].begin.position) && Generation(block[k - 1]) == Generation(block[k]) && block[k - 1].begin.text <= block[k].begin.text
    {
      assert TakesUp(es[i + k - 1], es[i + k].begin.position);
    }
    if i > 0 { assert TakesUp(es[i - 1], es[i].begin.position); }
  }

  /** The block found what one pass over the file finds, from where its generation began up
      to the committed offset, and that offset is a line start or strictly inside an
      oversized line. */
  ghost predicate ExactlyOnce(c: Config, es: seq<Entry>, i: nat, j: nat)
    requires IsBlock(es, i, j)
  {
    var last := es[j - 1];
    && (i > 0 ==> From(es[i]) == 0)
    && From(es[i]) <= Until(last) <= |last.begin.text|
    && PassOf(es[i..j]) == OnePass(LogOf(c, last.begin.position), last.begin.text, From(es[i]), Until(last), false, ClockOf(es[i..j]))
    && Placed(c.buffer, last.begin.text, From(es[i]), Until(last), last.scanned.skipping)
  }

  lemma FromBlock(c: Config, es: seq<Entry>, i: nat, j: nat)
    requires IsBlock(es, i, j) && BlockIsOnePass(c, es[i..j])
    requires !es[i].begin.position.skipping && (i > 0 ==> From(es[i]) == 0)
    ensures ExactlyOnce(c, es, i, j)
  {
    assert es[i..j][0] == es[i] && es[i..j][j - i - 1] == es[j - 1];
  }

  lemma GenuineSlice(c: Config, es: seq<Entry>, i: nat, j: nat)
    requires AllGenuine(c, es) && i <= j <= |es|
    ensures AllGenuine(c, es[i..j])
  {
    forall k | 0 <= k < j - i ensures Genuine(c, es[i..j][k]) {
      assert Genuine(c, es[i + k]);
    }
  }

  lemma BlockExactlyOnce(c: Config, es: seq<Entry>, i: nat, j: nat)
    requires Chained(es) && AllGenuine(c, es) && IsBlock(es, i, j) && OnlyGrows(es, i, j)
    ensures ExactlyOnce(c, es, i, j)
  {
    BlockIsOneGeneration(es, i, j);
    GenuineSlice(c, es, i, j);
    BlocksAreOnePass(c, es[i..j]);
    FromBlock(c, es, i, j);
  }

  /** Exactly once: as long as no failing read loses its place, the committed polls of a
      generation together found exactly what one pass over the file finds up to the
      committed offset, each line judged by the clock of the poll that consumed it. */
  lemma CommittedExactlyOnce(c: Config, acts: seq<Act>, i: nat, j: nat)
    requires AllHarmless(c, acts)
    requires IsBlock(Run(c, acts).entries, i, j) && OnlyGrows(Run(c, acts).entries, i, j)
    ensures ExactlyOnce(c, Run(c, acts).entries, i, j)
  {
    RunUnbroken(c, acts);
    RunIsGenuine(c, acts);
    BlockExactlyOnce(c, Run(c, acts).entries, i, j);
  }

  // ---------- failing reads ----------

  /** The tail follows the text it has open. */
  predicate Anchored(c: Config, m: Memory, text: string) {
    m.open && m.position.offset <= |text| && m.position.anchor == Anchor(c, text, m.position.offset)
  }

  lemma AnchorKept(c: Config, text: string, more: string, offset: nat)
    requires offset <= |text| && text <= more
    ensures Anchor(c, more, offset) == Anchor(c, text, offset)
  {
    var from := if offset < 64 then 0 else offset - 64;
    assert more[from..offset] == text[from..offset];
  }

  lemma AnchoredBegins(c: Config, m: Memory, look: Look)
    requires Anchored(c, m, look.held)
    ensures Begun(c, m, look) == Some(Begin(m.position, look.held, 0))
  {}

  /** After a failing read whose status was committed, the next poll resumes where the
      failed one began exactly when its first read was the one that failed. */
  lemma FailedPollResumesIff(c: Config, m: Memory, look: Look, next: Look)
    requires Anchored(c, m, look.held) && look.held <= next.held && Breaks(c, Begin(m.position, look.held, 0), look)
    ensures var after := PollTail(c, m, look).memory.(last := ZERO_TIME);
            var b := Begun(c, after, next);
            b.Some? &&
            ((b.value.position.generation == m.position.generation && b.value.position.offset == m.position.offset) <==>
             look.fails(m.position.offset))
  {
    AnchoredBegins(c, m, look);
    AnchorKept(c, look.held, next.held, m.position.offset);
    BreaksIff(c, Begin(m.position, look.held, 0), look);
    SweptFails(c, Begin(m.position, look.held, 0), look);
  }

  /** The bytes an anchor is taken over. */
  function Window(text: string, offset: nat): string
    requires offset <= |text|
  {
    text[if offset < 64 then 0 else offset - 64..offset]
  }

  /** Its anchor left behind, the position then looks like one in a replaced file, unless
      the bytes before it and before the failing boundary happen to be equal: the next poll
      reads the whole file again as a new generation. */
  lemma FailedPollRereadsIff(c: Config, m: Memory, look: Look, next: Look)
    requires Injective(c.naming) && forall s :: c.naming.digest(s) != ""
    requires Anchored(c, m, look.held) && look.held <= next.held && Breaks(c, Begin(m.position, look.held, 0), look)
    ensures var after := PollTail(c, m, look).memory.(last := ZERO_TIME);
            var stopped := FailurePoint(c, Begin(m.position, look.held, 0), look).value;
            var b := Begun(c, after, next);
            b.Some? &&
            ((b.value.position.generation == m.position.generation + 1 && b.value.position.offset == 0) <==>
             m.position.offset > 0 && Window(look.held, m.position.offset) != Window(look.held, stopped))
  {
    var b := Begin(m.position, look.held, 0);
    var stopped := FailurePoint(c, b, look).value;
    AnchoredBegins(c, m, look);
    BreaksIff(c, b, look);
    AnchorKept(c, look.held, next.held, m.position.offset);
    AnchorKept(c, look.held, next.held, stopped);
    if m.position.offset > 0 && Anchor(c, look.held, m.position.offset) == Anchor(c, look.held, stopped) {
      StableIdInjective(c.naming, [Window(look.held, m.position.offset)], [Window(look.held, stopped)]);
    }
  }
}
