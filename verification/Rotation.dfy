/** Following a renamed log. */
module Rotation {
  import opened Wrappers
  import opened Clock
  import opened Lines
  import opened Tail

  // A rename is followed once the old file is drained, exactly unless the poll reaches its
  // limit of events before the last complete line.

  lemma {:induction false} ScanReads(log: Log, text: string, start: nat, at: nat, end: nat, skipping: bool, n: nat, now: Time, fails: nat -> bool)
    requires start <= at <= end <= |text|
    ensures var s := Scan(log, text, start, at, end, skipping, n, now, fails); s.offset - start <= s.read
    decreases end - at
  {
    if Room(start, at, n) && !fails(at) && !NextSlice(log.buffer, text, at, end).Rest? {
      var p := Found(log, text, at, end, skipping, now);
      ScanNext(log, text, start, at, end, skipping, n, now, fails);
      ScanReads(log, text, start, Moved(log.buffer, text, at, end), end, NextSlice(log.buffer, text, at, end).Full?, n + |p.events|, now, fails);
    }
  }

  /** The loop that stops short of its limits has read the window to its end. */
  lemma {:induction false} ScanDrains(log: Log, text: string, start: nat, at: nat, end: nat, skipping: bool, n: nat, now: Time, fails: nat -> bool)
    requires start <= at <= end <= |text|
    ensures var s := Scan(log, text, start, at, end, skipping, n, now, fails);
            !s.failed && s.read < MAX_POLL && n + |s.pass.events| < MAX_EVENTS ==> s.read == end - start && Newline(text, s.offset, end) == end
    decreases end - at
  {
    if Room(start, at, n) && !fails(at) && !NextSlice(log.buffer, text, at, end).Rest? {
      var p := Found(log, text, at, end, skipping, now);
      ScanNext(log, text, start, at, end, skipping, n, now, fails);
      ScanDrains(log, text, start, Moved(log.buffer, text, at, end), end, NextSlice(log.buffer, text, at, end).Full?, n + |p.events|, now, fails);
    }
  }

  lemma NoEventsInLine(log: Log, text: string, at: nat, m: nat, skipping: bool, clock: nat -> Time, whole: (nat, nat, bool) -> Pass)
    requires at <= m <= |text| && Newline(text, at, m) == m && Passes(log, text, clock, whole)
    ensures whole(at, m, skipping).events == []
  {
    PassEnds(log, text, at, m, skipping, clock);
    assert whole(at, m, skipping) == OnePass(log, text, at, m, skipping, clock);
  }

  /** No newline in [at, m) when the slice at at goes beyond m, or the window has none. */
  lemma SliceBeyond(buffer: Buffer, text: string, at: nat, end: nat, m: nat)
    requires at <= m <= end <= |text|
    requires NextSlice(buffer, text, at, end).Rest? || m < Moved(buffer, text, at, end)
    ensures Newline(text, at, m) == m
  {
    var stop := if end - at < buffer then end else at + buffer;
    if NextSlice(buffer, text, at, end).Rest? {
      NewlineStops(text, at, m, end);
    } else {
      NewlineStops(text, at, m, stop);
    }
  }

  /** The loop never goes beyond a point before which the limit of events is reached. */
  lemma {:induction false} ScanStops(log: Log, text: string, start: nat, at: nat, end: nat, skipping: bool, n: nat, now: Time, fails: nat -> bool, m: nat,
                                     clock: nat -> Time, whole: (nat, nat, bool) -> Pass)
    requires start <= at <= m <= end <= |text| && (forall i :: clock(i) == now) && Passes(log, text, clock, whole)
    requires n + |whole(at, m, skipping).events| >= MAX_EVENTS
    ensures var s := Scan(log, text, start, at, end, skipping, n, now, fails); !s.failed ==> s.offset <= m && s.read == s.offset - start
    decreases end - at
  {
    if Room(start, at, n) && !fails(at) {
      if NextSlice(log.buffer, text, at, end).Rest? || m < Moved(log.buffer, text, at, end) {
        SliceBeyond(log.buffer, text, at, end, m);
        NoEventsInLine(log, text, at, m, skipping, clock, whole);
      } else {
        var p := Found(log, text, at, end, skipping, now);
        WholeSteps(log, text, at, end, m, skipping, clock, whole);
        ScanNext(log, text, start, at, end, skipping, n, now, fails);
        ScanStops(log, text, start, Moved(log.buffer, text, at, end), end, NextSlice(log.buffer, text, at, end).Full?, n + |p.events|, now, fails, m, clock, whole);
      }
    }
  }

  /** A complete line ends at or after the position. */
  predicate LineAhead(text: string, i: nat) { i <= |text| && Newline(text, i, |text|) < |text| }

  /** Within one poll's window, as many events as a poll takes lie before a complete line. */
  ghost predicate Crowded(c: Config, b: Begin, now: Time)
    requires b.position.offset <= |b.text|
  {
    exists m: nat ::
      && b.position.offset <= m < b.position.offset + MAX_POLL && LineAhead(b.text, m)
      && |OnePass(LogOf(c, b.position), b.text, b.position.offset, m, b.position.skipping, Always(now)).events| >= MAX_EVENTS
  }

  /** The poll goes over to the renamed file although a complete line is left in the old one. */
  predicate Abandons(c: Config, b: Begin, look: Look)
    requires b.position.offset <= |b.text|
  {
    Rotates(b.position, Swept(c, b, look), look) && LineAhead(b.text, Swept(c, b, look).offset)
  }

  lemma CrowdedStops(c: Config, b: Begin, look: Look, m: nat)
    requires b.position.offset <= |b.text| && b.position.offset <= m <= WindowEnd(b)
    requires |OnePass(LogOf(c, b.position), b.text, b.position.offset, m, b.position.skipping, Always(look.now)).events| >= MAX_EVENTS
    requires !Swept(c, b, look).failed
    ensures Swept(c, b, look).offset <= m && Swept(c, b, look).read <= m - b.position.offset
  {
    var log, clock := LogOf(c, b.position), Always(look.now);
    var whole: (nat, nat, bool) -> Pass :=
      (from: nat, until: nat, skip: bool) => if from <= until <= |b.text| then OnePass(log, b.text, from, until, skip, clock) else Pass([], 0);
    ScanStops(log, b.text, b.position.offset, b.position.offset, WindowEnd(b), b.position.skipping, 0, look.now, look.fails, m, clock, whole);
  }

  lemma NewlineAhead(text: string, i: nat, m: nat)
    requires i <= m && LineAhead(text, m)
    ensures LineAhead(text, i)
  {
    NewlineStops(text, i, m, |text|);
  }

  /** Where another file has taken the path, a poll whose reads succeed abandons complete
      lines of the old one exactly when these are crowded out: the unread part holds as many
      events as a poll takes before its last complete line, within the poll's window. */
  lemma AbandonsIff(c: Config, m: Memory, look: Look)
    requires Begun(c, m, look).Some? && !PollTail(c, m, look).failed
    requires look.after.Some? && look.after.value != Begun(c, m, look).value.position.identity
    ensures Abandons(c, Begun(c, m, look).value, look) <==> Crowded(c, Begun(c, m, look).value, look.now)
  {
    var b := Begun(c, m, look).value;
    var s := Swept(c, b, look);
    var log := LogOf(c, b.position);
    ScanReads(log, b.text, b.position.offset, b.position.offset, WindowEnd(b), b.position.skipping, 0, look.now, look.fails);
    ScanDrains(log, b.text, b.position.offset, b.position.offset, WindowEnd(b), b.position.skipping, 0, look.now, look.fails);
    ScanIsOnePass(log, b.text, b.position.offset, WindowEnd(b), b.position.skipping, look.now, look.fails);
    if Abandons(c, b, look) {
      assert |s.pass.events| >= MAX_EVENTS;
      assert b.position.offset <= s.offset < b.position.offset + MAX_POLL;
    }
    if i: nat :|
        && b.position.offset <= i < b.position.offset + MAX_POLL && LineAhead(b.text, i)
        && |OnePass(log, b.text, b.position.offset, i, b.position.skipping, Always(look.now)).events| >= MAX_EVENTS
    {
      CrowdedStops(c, b, look, i);
      NewlineAhead(b.text, s.offset, i);
    }
  }

  // ---------- a concrete case ----------

  /** The same line n times. */
  function Repeated(line: string, n: nat): string { if n == 0 then "" else Repeated(line, n - 1) + line }

  lemma {:induction false} RepeatedAt(line: string, n: nat, k: nat)
    requires k < n
    ensures |Repeated(line, n)| == n * |line| && k * |line| + |line| <= n * |line|
    ensures Repeated(line, n)[k * |line|..k * |line| + |line|] == line
  {
    var front := Repeated(line, n - 1);
    RepeatedLength(line, n - 1);
    RepeatedLength(line, n);
    if k == n - 1 {
      assert (front + line)[|front|..] == line;
    } else {
      RepeatedAt(line, n - 1, k);
      assert (front + line)[k * |line|..k * |line| + |line|] == front[k * |line|..k * |line| + |line|];
    }
  }

  lemma {:induction false} RepeatedLength(line: string, n: nat)
    ensures |Repeated(line, n)| == n * |line|
  {
    if n > 0 {
      RepeatedLength(line, n - 1);
    }
  }

  /** An accepted line, short enough for a poll to read more than 4000 of them. */
  predicate Accepts(log: Log, line: string, now: Time) {
    && LineAt(line, 0, |line|) && |line| <= 260 && |line| <= log.buffer
    && log.parse(line).Some? && log.parse(line).value.at <= now + 60_000_000_000
  }

  lemma NthLine(log: Log, line: string, text: string, k: nat, at: nat, now: Time)
    requires Accepts(log, line, now) && text == Repeated(line, 4002) && k < 4002 && at == k * |line|
    ensures at + |line| <= |text| && LineAt(text, at, |line|)
    ensures NextSlice(log.buffer, text, at, |text|) == Line(|line|) && Moved(log.buffer, text, at, |text|) == at + |line|
    ensures |Found(log, text, at, |text|, false, now).events| == 1
  {
    RepeatedAt(line, 4002, k);
    forall i | at <= i < at + |line| ensures text[i] == line[i - at] {
      assert text[at..at + |line|][i - at] == line[i - at];
    }
    LineIsSlice(log.buffer, text, at, |line|, |text|);
  }

  lemma Products(k: nat, n: nat)
    requires k < MAX_EVENTS && n <= 260
    ensures k * n <= 1_040_000 && k * n + n == (k + 1) * n
  {}

  lemma OneMoreLine(log: Log, text: string, at: nat, n: nat, k: nat, now: Time)
    requires at <= |text| && at < MAX_POLL && k < MAX_EVENTS && NextSlice(log.buffer, text, at, |text|) == Line(n)
    requires |Found(log, text, at, |text|, false, now).events| == 1
    ensures var s := Scan(log, text, 0, at, |text|, false, k, now, _ => false);
            var rest := Scan(log, text, 0, at + n, |text|, false, k + 1, now, _ => false);
            s.offset == rest.offset && s.read == rest.read && s.failed == rest.failed
  {
    ScanNext(log, text, 0, at, |text|, false, k, now, _ => false);
  }

  lemma {:induction false} ScanRepeated(log: Log, line: string, text: string, k: nat, at: nat, now: Time)
    requires Accepts(log, line, now) && text == Repeated(line, 4002) && k <= MAX_EVENTS && at == k * |line| <= |text|
    ensures var s := Scan(log, text, 0, at, |text|, false, k, now, _ => false);
            s.offset == MAX_EVENTS * |line| && s.read == s.offset && !s.failed
    decreases MAX_EVENTS - k
  {
    if k < MAX_EVENTS {
      NthLine(log, line, text, k, at, now);
      Products(k, |line|);
      OneMoreLine(log, text, at, |line|, k, now);
      ScanRepeated(log, line, text, k + 1, at + |line|, now);
    }
  }

  /** 4002 accepted lines: at the event limit a rename abandons the last two, and they are
      reported as a single drop. */
  lemma EventLimitAbandons(c: Config, line: string, now: Time)
    requires Accepts(Log(c.source, "a", 0, c.naming, c.parse, c.buffer), line, now)
    ensures var m := Memory(true, Position("a", 0, "", 0, false), true, now);
            var look := Look(now, None, Repeated(line, 4002), Some("b"), _ => false);
            var b := Begun(c, m, look).value;
            var p := PollTail(c, m, look);
            && Abandons(c, b, look) && Swept(c, b, look).offset == 4000 * |line| && |look.held| == 4002 * |line|
            && p.memory.position.identity == "b" && !p.memory.open && p.dropped == Swept(c, b, look).pass.dropped + 1
  {
    var m := Memory(true, Position("a", 0, "", 0, false), true, now);
    var text := Repeated(line, 4002);
    var log := LogOf(c, m.position);
    RepeatedLength(line, 4002);
    ScanRepeated(log, line, text, 0, 0, now);
    NthLine(log, line, text, 4000, 4000 * |line|, now);
    assert text[4000 * |line| + |line| - 1] == '\n';
    NewlineAfter(text, 4000 * |line|, 4000 * |line| + |line| - 1, |text|);
  }
}
