/** Reading an append-only log in pieces: through a bounded buffer, in windows, up to a limit
    of events, and what one pass over the bytes would find instead. */
module Lines {
  import opened Wrappers
  import opened Clock
  import opened Ledger
  import opened SourceId

  /** The size of the buffer a line must fit in, newline included: 64 KiB in the program. */
  type Buffer = n: nat | 0 < n witness 1

  const MAX_POLL: nat := 1_048_576
  const MAX_EVENTS: nat := 4000

  /** What a log line says; how it is said is not interpreted. */
  datatype Parsed = Parsed(at: Time, dims: Dimensions)

  /** One generation of a log file, and what reads it. */
  datatype Log = Log(source: string, identity: string, generation: nat, naming: Naming, parse: string -> Option<Parsed>, buffer: Buffer)

  /** The first newline in text[from..until), or until. */
  function Newline(text: string, from: nat, until: nat): (i: nat)
    requires from <= until <= |text|
    ensures from <= i <= until
    ensures i < until ==> text[i] == '\n'
    decreases until - from
  {
    if from == until || text[from] == '\n' then from else Newline(text, from + 1, until)
  }

  function EventId(log: Log, start: nat, at: Time): string {
    StableId(log.naming, [log.source, log.identity, Decimal(log.generation), Decimal(start), log.naming.stamp(at)])
  }

  /** The event of a complete line, unless it does not parse or lies in the future. */
  function Judge(log: Log, text: string, start: nat, end: nat, now: Time): Option<Event>
    requires start <= end <= |text|
  {
    match log.parse(text[start..end])
    case None => None
    case Some(p) => if p.at > now + 60_000_000_000 then None else Some(Event(EventId(log, start, p.at), p.at, p.dims, 1))
  }

  /** What a stretch of log yields. */
  datatype Pass = Pass(events: seq<Event>, dropped: nat)

  function Verdict(log: Log, text: string, start: nat, end: nat, now: Time): Pass
    requires start <= end <= |text|
  {
    var e := Judge(log, text, start, end, now);
    if e.Some? then Pass([e.value], 0) else Pass([], 1)
  }

  /** The first complete line of a stretch: skipped if it was dropped already, dropped if it
      does not fit the buffer, judged otherwise. */
  function FirstLine(log: Log, text: string, from: nat, until: nat, skipping: bool, clock: nat -> Time): Pass
    requires from <= until <= |text| && Newline(text, from, until) < until
  {
    var i := Newline(text, from, until);
    if skipping then Pass([], 0)
    else if i + 1 - from > log.buffer then Pass([], 1)
    else Verdict(log, text, from, i + 1, clock(from))
  }

  /** One pass over text[from..until): split at newlines, drop each line over the buffer once, judge
      the others by the clock of the poll that consumed them. A stretch may begin inside a
      line already dropped, and end inside one. */
  function OnePass(log: Log, text: string, from: nat, until: nat, skipping: bool, clock: nat -> Time): Pass
    requires from <= until <= |text|
    decreases until - from
  {
    var i := Newline(text, from, until);
    if from == until then Pass([], 0)
    else if i == until then Pass([], if skipping then 0 else 1)
    else
      var line := FirstLine(log, text, from, until, skipping, clock);
      var rest := OnePass(log, text, i + 1, until, false, clock);
      Pass(line.events + rest.events, line.dropped + rest.dropped)
  }

  // ---------- reading through a buffer ----------

  /** What a buffered read returns: a line, a full buffer without newline, or the rest. */
  datatype Slice = Line(length: nat) | Full | Rest(length: nat)

  function NextSlice(buffer: Buffer, text: string, at: nat, end: nat): (s: Slice)
    requires at <= end <= |text|
    ensures s.Line? ==> 0 < s.length && at + s.length <= end
    ensures s.Full? ==> at + buffer <= end
    ensures s.Rest? ==> s.length == end - at < buffer
  {
    var stop := if end - at < buffer then end else at + buffer;
    var i := Newline(text, at, stop);
    if i < stop then Line(i + 1 - at) else if end - at < buffer then Rest(end - at) else Full
  }

  /** The offset after a slice that is not the last. */
  function Moved(buffer: Buffer, text: string, at: nat, end: nat): (m: nat)
    requires at <= end <= |text| && !NextSlice(buffer, text, at, end).Rest?
    ensures at < m <= end
  {
    if NextSlice(buffer, text, at, end).Full? then at + buffer else at + NextSlice(buffer, text, at, end).length
  }

  /** What a slice yields: the beginning of an oversized line is dropped, the rest of one is
      skipped, any other line is judged. */
  function Found(log: Log, text: string, at: nat, end: nat, skipping: bool, now: Time): Pass
    requires at <= end <= |text| && !NextSlice(log.buffer, text, at, end).Rest?
  {
    if skipping then Pass([], 0)
    else if NextSlice(log.buffer, text, at, end).Full? then Pass([], 1)
    else Verdict(log, text, at, Moved(log.buffer, text, at, end), now)
  }

  /** Where the read loop stands: next offset, whether inside a dropped line, what it found,
      the bytes it read and whether a read failed. */
  datatype Scanned = Scanned(offset: nat, skipping: bool, pass: Pass, read: nat, failed: bool)

  /** The loop goes on reading: neither the window nor the events are used up. */
  predicate Room(start: nat, at: nat, n: nat) { at - start < MAX_POLL && n < MAX_EVENTS }

  /** The read loop from offset at, with n events found already; the window starts at start
      and ends at end; fails says whether the read at an offset fails. */
  function Scan(log: Log, text: string, start: nat, at: nat, end: nat, skipping: bool, n: nat, now: Time, fails: nat -> bool): (s: Scanned)
    requires start <= at <= end <= |text|
    ensures at <= s.offset <= end
    decreases end - at
  {
    if !Room(start, at, n) then Scanned(at, skipping, Pass([], 0), at - start, false)
    else if fails(at) then Scanned(at, skipping, Pass([], 0), at - start, true)
    else if NextSlice(log.buffer, text, at, end).Rest? then Scanned(if skipping then end else at, skipping, Pass([], 0), end - start, false)
    else
      var p := Found(log, text, at, end, skipping, now);
      var rest := Scan(log, text, start, Moved(log.buffer, text, at, end), end, NextSlice(log.buffer, text, at, end).Full?, n + |p.events|, now, fails);
      rest.(pass := Pass(p.events + rest.pass.events, p.dropped + rest.pass.dropped))
  }

  /** One turn of the loop. */
  lemma ScanNext(log: Log, text: string, start: nat, at: nat, end: nat, skipping: bool, n: nat, now: Time, fails: nat -> bool)
    requires start <= at <= end <= |text| && Room(start, at, n) && !fails(at) && !NextSlice(log.buffer, text, at, end).Rest?
    ensures var p := Found(log, text, at, end, skipping, now);
            var rest := Scan(log, text, start, Moved(log.buffer, text, at, end), end, NextSlice(log.buffer, text, at, end).Full?, n + |p.events|, now, fails);
            Scan(log, text, start, at, end, skipping, n, now, fails) ==
            rest.(pass := Pass(p.events + rest.pass.events, p.dropped + rest.pass.dropped))
  {}

  // ---------- the buffered loop is one pass ----------

  lemma {:induction false} NewlineStops(text: string, from: nat, mid: nat, until: nat)
    requires from <= mid <= until <= |text|
    ensures Newline(text, from, mid) < mid ==> Newline(text, from, until) == Newline(text, from, mid)
    ensures Newline(text, from, mid) == mid ==> Newline(text, from, until) == Newline(text, mid, until)
    decreases mid - from
  {
    if from < mid && text[from] != '\n' {
      NewlineStops(text, from + 1, mid, until);
    }
  }

  lemma SliceEnds(buffer: Buffer, text: string, at: nat, end: nat)
    requires at <= end <= |text| && !NextSlice(buffer, text, at, end).Rest?
    ensures var m := Moved(buffer, text, at, end);
            if NextSlice(buffer, text, at, end).Full? then m == at + buffer && Newline(text, at, m) == m
            else m <= at + buffer && Newline(text, at, m) == m - 1
  {
    var stop := if end - at < buffer then end else at + buffer;
    NewlineStops(text, at, Moved(buffer, text, at, end), stop);
  }

  /** A complete line of n bytes begins at at. */
  predicate LineAt(text: string, at: nat, n: nat) {
    0 < n && at + n <= |text| && text[at + n - 1] == '\n' && forall i :: at <= i < at + n - 1 ==> text[i] != '\n'
  }

  lemma {:induction false} NewlineOfLine(text: string, from: nat, i: nat, until: nat)
    requires from <= i < until <= |text| && text[i] == '\n' && forall j :: from <= j < i ==> text[j] != '\n'
    ensures Newline(text, from, until) == i
    decreases i - from
  {
    if from < i {
      NewlineOfLine(text, from + 1, i, until);
    }
  }

  /** A line that fits the buffer is read in one slice. */
  lemma LineIsSlice(buffer: Buffer, text: string, at: nat, n: nat, end: nat)
    requires LineAt(text, at, n) && at + n <= end <= |text| && n <= buffer
    ensures NextSlice(buffer, text, at, end) == Line(n) && Moved(buffer, text, at, end) == at + n
  {
    NewlineOfLine(text, at, at + n - 1, if end - at < buffer then end else at + buffer);
  }

  lemma OversizedFirst(log: Log, text: string, at: nat, until: nat, skipping: bool, clock: nat -> Time)
    requires at <= until <= |text| && at + log.buffer <= Newline(text, at, until) < until
    ensures FirstLine(log, text, at, until, skipping, clock) == Pass([], if skipping then 0 else 1)
  {}

  lemma SkippedFirst(log: Log, text: string, at: nat, until: nat, clock: nat -> Time)
    requires at <= until <= |text| && Newline(text, at, until) < until
    ensures FirstLine(log, text, at, until, true, clock) == Pass([], 0)
  {}

  /** A full buffer is the beginning of a line that is dropped once, wherever it ends. */
  lemma FullSliceStep(log: Log, text: string, at: nat, until: nat, skipping: bool, clock: nat -> Time)
    requires at + log.buffer <= until <= |text| && Newline(text, at, at + log.buffer) == at + log.buffer
    ensures var whole := OnePass(log, text, at, until, skipping, clock);
            var rest := OnePass(log, text, at + log.buffer, until, true, clock);
            whole.events == rest.events && whole.dropped == (if skipping then 0 else 1) + rest.dropped
  {
    var m := at + log.buffer;
    NewlineStops(text, at, m, until);
    if Newline(text, m, until) < until {
      OversizedFirst(log, text, at, until, skipping, clock);
      SkippedFirst(log, text, m, until, clock);
      PassLine(log, text, at, until, skipping, clock);
      PassLine(log, text, m, until, true, clock);
    } else {
      PassEnds(log, text, at, until, skipping, clock);
      PassEnds(log, text, m, until, true, clock);
    }
  }

  /** A slice that is a whole line is the first line of the pass. */
  lemma LineIsFirst(log: Log, text: string, at: nat, end: nat, until: nat, skipping: bool, clock: nat -> Time)
    requires at <= end <= |text| && NextSlice(log.buffer, text, at, end).Line? && Moved(log.buffer, text, at, end) <= until <= |text|
    ensures Newline(text, at, until) == Moved(log.buffer, text, at, end) - 1
    ensures FirstLine(log, text, at, until, skipping, clock) == Found(log, text, at, end, skipping, clock(at))
  {
    SliceEnds(log.buffer, text, at, end);
    NewlineStops(text, at, Moved(log.buffer, text, at, end), until);
  }

  lemma LineSliceStep(log: Log, text: string, at: nat, end: nat, until: nat, skipping: bool, clock: nat -> Time)
    requires at <= end <= |text| && NextSlice(log.buffer, text, at, end).Line? && Moved(log.buffer, text, at, end) <= until <= |text|
    ensures var first := Found(log, text, at, end, skipping, clock(at));
            var rest := OnePass(log, text, Moved(log.buffer, text, at, end), until, false, clock);
            OnePass(log, text, at, until, skipping, clock) == Pass(first.events + rest.events, first.dropped + rest.dropped)
  {
    LineIsFirst(log, text, at, end, until, skipping, clock);
    PassLine(log, text, at, until, skipping, clock);
  }

  /** One slice more or less makes no difference to a pass. */
  lemma SliceStep(log: Log, text: string, at: nat, end: nat, until: nat, skipping: bool, clock: nat -> Time)
    requires at <= end <= |text| && !NextSlice(log.buffer, text, at, end).Rest? && Moved(log.buffer, text, at, end) <= until <= |text|
    ensures var whole := OnePass(log, text, at, until, skipping, clock);
            var first := Found(log, text, at, end, skipping, clock(at));
            var rest := OnePass(log, text, Moved(log.buffer, text, at, end), until, NextSlice(log.buffer, text, at, end).Full?, clock);
            whole.events == first.events + rest.events && whole.dropped == first.dropped + rest.dropped
  {
    if NextSlice(log.buffer, text, at, end).Full? {
      SliceEnds(log.buffer, text, at, end);
      FullSliceStep(log, text, at, until, skipping, clock);
    } else {
      LineSliceStep(log, text, at, end, until, skipping, clock);
    }
  }

  /** whole is the pass function of this log and clock, by another name. */
  ghost predicate Passes(log: Log, text: string, clock: nat -> Time, whole: (nat, nat, bool) -> Pass) {
    forall from: nat, until: nat, skipping: bool {:trigger OnePass(log, text, from, until, skipping, clock)} ::
      from <= until <= |text| ==> whole(from, until, skipping) == OnePass(log, text, from, until, skipping, clock)
  }

  lemma WholeSteps(log: Log, text: string, at: nat, end: nat, until: nat, skipping: bool, clock: nat -> Time, whole: (nat, nat, bool) -> Pass)
    requires at <= end <= |text| && !NextSlice(log.buffer, text, at, end).Rest? && Moved(log.buffer, text, at, end) <= until <= |text|
    requires Passes(log, text, clock, whole)
    ensures var first := Found(log, text, at, end, skipping, clock(at));
            var rest := whole(Moved(log.buffer, text, at, end), until, NextSlice(log.buffer, text, at, end).Full?);
            whole(at, until, skipping) == Pass(first.events + rest.events, first.dropped + rest.dropped)
  {
    SliceStep(log, text, at, end, until, skipping, clock);
  }

  lemma WholeStops(log: Log, text: string, at: nat, end: nat, skipping: bool, clock: nat -> Time, whole: (nat, nat, bool) -> Pass)
    requires at <= end <= |text| && Passes(log, text, clock, whole)
    ensures whole(at, at, skipping) == Pass([], 0)
    ensures NextSlice(log.buffer, text, at, end).Rest? && skipping ==> whole(at, end, skipping) == Pass([], 0)
  {
    assert OnePass(log, text, at, at, skipping, clock) == Pass([], 0);
    assert whole(at, end, skipping) == OnePass(log, text, at, end, skipping, clock);
  }

  lemma {:induction false} ScanIsWhole(log: Log, text: string, start: nat, at: nat, end: nat, skipping: bool, n: nat, now: Time, fails: nat -> bool, clock: nat -> Time, whole: (nat, nat, bool) -> Pass)
    requires start <= at <= end <= |text| && (forall i :: clock(i) == now) && Passes(log, text, clock, whole)
    ensures var s := Scan(log, text, start, at, end, skipping, n, now, fails);
            s.pass == whole(at, s.offset, skipping)
    decreases end - at
  {
    if Room(start, at, n) && !fails(at) && !NextSlice(log.buffer, text, at, end).Rest? {
      var p := Found(log, text, at, end, skipping, now);
      var m, full := Moved(log.buffer, text, at, end), NextSlice(log.buffer, text, at, end).Full?;
      ScanNext(log, text, start, at, end, skipping, n, now, fails);
      ScanIsWhole(log, text, start, m, end, full, n + |p.events|, now, fails, clock, whole);
      WholeSteps(log, text, at, end, Scan(log, text, start, m, end, full, n + |p.events|, now, fails).offset, skipping, clock, whole);
    } else {
      WholeStops(log, text, at, end, skipping, clock, whole);
    }
  }

  /** The clock of a single poll. */
  function Always(now: Time): nat -> Time { _ => now }

  /** However the window, the event limit or a failing read cuts it short, the read loop
      finds exactly what one pass over the bytes it consumed finds. */
  lemma ScanIsOnePass(log: Log, text: string, start: nat, end: nat, skipping: bool, now: Time, fails: nat -> bool)
    requires start <= end <= |text|
    ensures var s := Scan(log, text, start, start, end, skipping, 0, now, fails);
            s.pass == OnePass(log, text, start, s.offset, skipping, Always(now))
  {
    var clock := Always(now);
    var whole: (nat, nat, bool) -> Pass :=
      (from: nat, until: nat, skip: bool) => if from <= until <= |text| then OnePass(log, text, from, until, skip, clock) else Pass([], 0);
    ScanIsWhole(log, text, start, start, end, skipping, 0, now, fails, clock, whole);
  }

  // ---------- failing reads ----------

  /** The boundaries of a window are where it starts and where each slice ends: the first of
      them at which a read fails. */
  function FirstFailure(buffer: Buffer, text: string, at: nat, end: nat, fails: nat -> bool): (f: Option<nat>)
    requires at <= end <= |text|
    ensures f.Some? ==> at <= f.value <= end && fails(f.value)
    decreases end - at
  {
    if fails(at) then Some(at)
    else if NextSlice(buffer, text, at, end).Rest? then None
    else FirstFailure(buffer, text, Moved(buffer, text, at, end), end, fails)
  }

  /** That boundary lies within the reach of a poll that found n events before at. */
  ghost predicate Reached(start: nat, at: nat, n: nat, f: Option<nat>, skipping: bool, whole: (nat, nat, bool) -> Pass) {
    f.Some? && at <= f.value < start + MAX_POLL && n + |whole(at, f.value, skipping).events| < MAX_EVENTS
  }

  /** A slice before the failing boundary makes no difference. */
  lemma ReachedStep(log: Log, text: string, start: nat, at: nat, end: nat, n: nat, f: nat, skipping: bool, clock: nat -> Time, whole: (nat, nat, bool) -> Pass)
    requires at <= end <= |text| && !NextSlice(log.buffer, text, at, end).Rest? && Moved(log.buffer, text, at, end) <= f <= |text|
    requires Passes(log, text, clock, whole)
    ensures var p := Found(log, text, at, end, skipping, clock(at));
            Reached(start, at, n, Some(f), skipping, whole) <==>
            Reached(start, Moved(log.buffer, text, at, end), n + |p.events|, Some(f), NextSlice(log.buffer, text, at, end).Full?, whole)
  {
    WholeSteps(log, text, at, end, f, skipping, clock, whole);
  }

  lemma {:induction false} FailsAtFirst(log: Log, text: string, start: nat, at: nat, end: nat, skipping: bool, n: nat, now: Time, fails: nat -> bool)
    requires start <= at <= end <= |text|
    ensures var s := Scan(log, text, start, at, end, skipping, n, now, fails);
            s.failed ==> FirstFailure(log.buffer, text, at, end, fails) == Some(s.offset)
    decreases end - at
  {
    if Room(start, at, n) && !fails(at) && !NextSlice(log.buffer, text, at, end).Rest? {
      var p := Found(log, text, at, end, skipping, now);
      ScanNext(log, text, start, at, end, skipping, n, now, fails);
      FailsAtFirst(log, text, start, Moved(log.buffer, text, at, end), end, NextSlice(log.buffer, text, at, end).Full?, n + |p.events|, now, fails);
    }
  }

  lemma StopsFailingIff(log: Log, text: string, start: nat, at: nat, end: nat, skipping: bool, n: nat, now: Time, fails: nat -> bool,
                        clock: nat -> Time, whole: (nat, nat, bool) -> Pass)
    requires start <= at <= end <= |text| && Passes(log, text, clock, whole)
    requires !Room(start, at, n) || fails(at) || NextSlice(log.buffer, text, at, end).Rest?
    ensures Scan(log, text, start, at, end, skipping, n, now, fails).failed <==>
            Reached(start, at, n, FirstFailure(log.buffer, text, at, end, fails), skipping, whole)
  {
    if fails(at) { WholeStops(log, text, at, end, skipping, clock, whole); }
  }

  lemma {:induction false} ScanFailsIff(log: Log, text: string, start: nat, at: nat, end: nat, skipping: bool, n: nat, now: Time, fails: nat -> bool,
                                        clock: nat -> Time, whole: (nat, nat, bool) -> Pass)
    requires start <= at <= end <= |text| && (forall i :: clock(i) == now) && Passes(log, text, clock, whole)
    ensures Scan(log, text, start, at, end, skipping, n, now, fails).failed <==>
            Reached(start, at, n, FirstFailure(log.buffer, text, at, end, fails), skipping, whole)
    decreases end - at
  {
    if Room(start, at, n) && !fails(at) && !NextSlice(log.buffer, text, at, end).Rest? {
      var p := Found(log, text, at, end, skipping, now);
      var m, full := Moved(log.buffer, text, at, end), NextSlice(log.buffer, text, at, end).Full?;
      var f := FirstFailure(log.buffer, text, at, end, fails);
      ScanNext(log, text, start, at, end, skipping, n, now, fails);
      ScanFailsIff(log, text, start, m, end, full, n + |p.events|, now, fails, clock, whole);
      assert f == FirstFailure(log.buffer, text, m, end, fails);
      if f.Some? { ReachedStep(log, text, start, at, end, n, f.value, skipping, clock, whole); }
    } else {
      StopsFailingIff(log, text, start, at, end, skipping, n, now, fails, clock, whole);
    }
  }

  /** Exactly when a poll fails, in terms of the file: the first failing boundary lies within
      the bytes and before the events it may read. That is where it stops. */
  lemma FailsIff(log: Log, text: string, start: nat, end: nat, skipping: bool, now: Time, fails: nat -> bool)
    requires start <= end <= |text|
    ensures var s := Scan(log, text, start, start, end, skipping, 0, now, fails);
            var f := FirstFailure(log.buffer, text, start, end, fails);
            && (s.failed <==> f.Some? && f.value < start + MAX_POLL
                              && |OnePass(log, text, start, f.value, skipping, Always(now)).events| < MAX_EVENTS)
            && (s.failed ==> s.offset == f.value)
  {
    var clock := Always(now);
    var whole: (nat, nat, bool) -> Pass :=
      (from: nat, until: nat, skip: bool) => if from <= until <= |text| then OnePass(log, text, from, until, skip, clock) else Pass([], 0);
    ScanFailsIff(log, text, start, start, end, skipping, 0, now, fails, clock, whole);
    FailsAtFirst(log, text, start, start, end, skipping, 0, now, fails);
  }

  // ---------- positions ----------

  /** Tailing began at origin; a line starts there and after every newline. */
  predicate LineStart(text: string, origin: nat, i: nat) {
    origin <= i <= |text| && (i == origin || text[i - 1] == '\n')
  }

  /** A line that starts at i and fills the buffer runs on to offset. */
  predicate OversizedFrom(buffer: Buffer, text: string, i: nat, offset: nat) {
    i + buffer <= offset <= |text| && Newline(text, i, offset) == offset
  }

  /** A saved position is a line start, or strictly inside an oversized line. */
  ghost predicate Placed(buffer: Buffer, text: string, origin: nat, offset: nat, skipping: bool) {
    if skipping then exists i: nat :: LineStart(text, origin, i) && OversizedFrom(buffer, text, i, offset)
    else LineStart(text, origin, offset)
  }

  lemma SlicePlaced(buffer: Buffer, text: string, origin: nat, at: nat, end: nat, skipping: bool)
    requires at <= end <= |text| && Placed(buffer, text, origin, at, skipping)
    ensures var next := NextSlice(buffer, text, at, end);
            if next.Rest? then skipping ==> Placed(buffer, text, origin, end, true)
            else Placed(buffer, text, origin, Moved(buffer, text, at, end), next.Full?)
  {
    if NextSlice(buffer, text, at, end).Line? {
      SliceEnds(buffer, text, at, end);
    } else {
      var m := if NextSlice(buffer, text, at, end).Full? then at + buffer else end;
      if skipping {
        var i: nat :| LineStart(text, origin, i) && OversizedFrom(buffer, text, i, at);
        NewlineStops(text, i, at, m);
        assert OversizedFrom(buffer, text, i, m);
      } else if NextSlice(buffer, text, at, end).Full? {
        assert OversizedFrom(buffer, text, at, m);
      }
    }
  }

  /** A property of positions that every slice keeps. */
  ghost predicate KeptBySlices(buffer: Buffer, text: string, end: nat, ok: (nat, bool) -> bool) {
    forall i: nat, k: bool {:trigger NextSlice(buffer, text, i, end), ok(i, k)} :: i <= end <= |text| && ok(i, k) ==>
      if NextSlice(buffer, text, i, end).Rest? then k ==> ok(end, true)
      else ok(Moved(buffer, text, i, end), NextSlice(buffer, text, i, end).Full?)
  }

  /** What every slice keeps, the read loop keeps, however it is cut short. */
  lemma {:induction false} ScanKeeps(log: Log, text: string, start: nat, at: nat, end: nat, skipping: bool, n: nat, now: Time, fails: nat -> bool, ok: (nat, bool) -> bool)
    requires start <= at <= end <= |text| && ok(at, skipping) && KeptBySlices(log.buffer, text, end, ok)
    ensures var s := Scan(log, text, start, at, end, skipping, n, now, fails); ok(s.offset, s.skipping)
    decreases end - at
  {
    if Room(start, at, n) && !fails(at) && !NextSlice(log.buffer, text, at, end).Rest? {
      var p := Found(log, text, at, end, skipping, now);
      ScanNext(log, text, start, at, end, skipping, n, now, fails);
      ScanKeeps(log, text, start, Moved(log.buffer, text, at, end), end, NextSlice(log.buffer, text, at, end).Full?, n + |p.events|, now, fails, ok);
    }
  }

  /** The read loop leaves a position where it may leave one. */
  lemma ScanPlaced(log: Log, text: string, origin: nat, start: nat, end: nat, skipping: bool, now: Time, fails: nat -> bool)
    requires start <= end <= |text| && Placed(log.buffer, text, origin, start, skipping)
    ensures var s := Scan(log, text, start, start, end, skipping, 0, now, fails); Placed(log.buffer, text, origin, s.offset, s.skipping)
  {
    var ok: (nat, bool) -> bool := (i: nat, k: bool) => Placed(log.buffer, text, origin, i, k);
    forall i: nat, k: bool {:trigger NextSlice(log.buffer, text, i, end), ok(i, k)} | i <= end && ok(i, k)
      ensures if NextSlice(log.buffer, text, i, end).Rest? then k ==> ok(end, true)
              else ok(Moved(log.buffer, text, i, end), NextSlice(log.buffer, text, i, end).Full?)
    {
      SlicePlaced(log.buffer, text, origin, i, end, k);
    }
    ScanKeeps(log, text, start, start, end, skipping, 0, now, fails, ok);
  }

  // ---------- passes join ----------

  /** A position a pass from (from, skipping) may stop at and be taken up again. */
  ghost predicate Resumable(buffer: Buffer, text: string, from: nat, skipping: bool, mid: nat, inside: bool) {
    && from <= mid <= |text|
    && if inside then
         (Newline(text, from, mid) == mid && skipping) || exists i: nat :: LineStart(text, from, i) && OversizedFrom(buffer, text, i, mid)
       else (mid == from && !skipping) || (from < mid && text[mid - 1] == '\n')
  }

  lemma NewlineAfter(text: string, from: nat, i: nat, mid: nat)
    requires from <= i < mid <= |text| && text[i] == '\n'
    ensures Newline(text, from, mid) <= i
    decreases i - from
  {
    if from < i && text[from] != '\n' {
      NewlineAfter(text, from + 1, i, mid);
    }
  }

  /** whole is first and then rest. */
  predicate Joins(whole: Pass, first: Pass, rest: Pass) {
    whole.events == first.events + rest.events && whole.dropped == first.dropped + rest.dropped
  }

  lemma JoinsLater(line: Pass, whole: Pass, first: Pass, rest: Pass)
    requires Joins(whole, first, rest)
    ensures Joins(Pass(line.events + whole.events, line.dropped + whole.dropped),
                  Pass(line.events + first.events, line.dropped + first.dropped), rest)
  {
    assert (line.events + first.events) + rest.events == line.events + (first.events + rest.events);
  }

  lemma JoinsNow(whole: Pass, first: Pass, rest: Pass)
    requires first.events == [] && whole.events == rest.events && whole.dropped == first.dropped + rest.dropped
    ensures Joins(whole, first, rest)
  {}

  lemma PassLine(log: Log, text: string, from: nat, until: nat, skipping: bool, clock: nat -> Time)
    requires from <= until <= |text| && Newline(text, from, until) < until
    ensures var line := FirstLine(log, text, from, until, skipping, clock);
            var rest := OnePass(log, text, Newline(text, from, until) + 1, until, false, clock);
            OnePass(log, text, from, until, skipping, clock) == Pass(line.events + rest.events, line.dropped + rest.dropped)
  {}

  lemma PassEnds(log: Log, text: string, from: nat, until: nat, skipping: bool, clock: nat -> Time)
    requires from <= until <= |text| && Newline(text, from, until) == until
    ensures OnePass(log, text, from, until, skipping, clock) == Pass([], if from == until || skipping then 0 else 1)
  {}

  lemma JoinAfterLine(log: Log, text: string, from: nat, mid: nat, until: nat, skipping: bool, clock: nat -> Time, rest: Pass)
    requires from <= mid <= until <= |text| && Newline(text, from, mid) < mid
    requires var i := Newline(text, from, mid) + 1;
             Joins(OnePass(log, text, i, until, false, clock), OnePass(log, text, i, mid, false, clock), rest)
    ensures Joins(OnePass(log, text, from, until, skipping, clock), OnePass(log, text, from, mid, skipping, clock), rest)
  {
    var i := Newline(text, from, mid) + 1;
    NewlineStops(text, from, mid, until);
    PassLine(log, text, from, mid, skipping, clock);
    PassLine(log, text, from, until, skipping, clock);
    JoinsLater(FirstLine(log, text, from, mid, skipping, clock), OnePass(log, text, i, until, false, clock), OnePass(log, text, i, mid, false, clock), rest);
  }

  /** The rest of the stretch is the rest of a line already counted. */
  lemma JoinInLastLine(log: Log, text: string, from: nat, mid: nat, until: nat, skipping: bool, inside: bool, clock: nat -> Time)
    requires from <= mid <= until <= |text| && Newline(text, from, mid) == mid && Newline(text, mid, until) == until
    requires if inside then skipping || from < mid else from == mid && !skipping
    ensures Joins(OnePass(log, text, from, until, skipping, clock), OnePass(log, text, from, mid, skipping, clock), OnePass(log, text, mid, until, inside, clock))
  {
    NewlineStops(text, from, mid, until);
    PassEnds(log, text, from, mid, skipping, clock);
    PassEnds(log, text, from, until, skipping, clock);
    PassEnds(log, text, mid, until, inside, clock);
    JoinsNow(OnePass(log, text, from, until, skipping, clock), OnePass(log, text, from, mid, skipping, clock), OnePass(log, text, mid, until, inside, clock));
  }

  /** The first line of the whole ends in the rest. */
  lemma JoinInFirstLine(log: Log, text: string, from: nat, mid: nat, until: nat, skipping: bool, inside: bool, clock: nat -> Time)
    requires from <= mid <= until <= |text| && Newline(text, from, mid) == mid && Newline(text, mid, until) < until
    requires if inside then skipping || from + log.buffer <= mid else from == mid && !skipping
    ensures Joins(OnePass(log, text, from, until, skipping, clock), OnePass(log, text, from, mid, skipping, clock), OnePass(log, text, mid, until, inside, clock))
  {
    NewlineStops(text, from, mid, until);
    PassEnds(log, text, from, mid, skipping, clock);
    PassLine(log, text, from, until, skipping, clock);
    PassLine(log, text, mid, until, inside, clock);
    JoinsNow(OnePass(log, text, from, until, skipping, clock), OnePass(log, text, from, mid, skipping, clock), OnePass(log, text, mid, until, inside, clock));
  }

  /** Stopping at a resumable position and going on from there finds what one pass finds. */
  lemma {:induction false} PassesJoin(log: Log, text: string, from: nat, mid: nat, until: nat, skipping: bool, inside: bool, clock: nat -> Time)
    requires mid <= until <= |text| && Resumable(log.buffer, text, from, skipping, mid, inside)
    ensures Joins(OnePass(log, text, from, until, skipping, clock), OnePass(log, text, from, mid, skipping, clock), OnePass(log, text, mid, until, inside, clock))
    decreases mid - from
  {
    var i := Newline(text, from, mid);
    if i < mid {
      ResumesLater(log.buffer, text, from, skipping, mid, inside);
      PassesJoin(log, text, i + 1, mid, until, false, inside, clock);
      JoinAfterLine(log, text, from, mid, until, skipping, clock, OnePass(log, text, mid, until, inside, clock));
    } else {
      StopsInLine(log.buffer, text, from, skipping, mid, inside);
      if Newline(text, mid, until) == until {
        JoinInLastLine(log, text, from, mid, until, skipping, inside, clock);
      } else {
        JoinInFirstLine(log, text, from, mid, until, skipping, inside, clock);
      }
    }
  }

  lemma ResumesLater(buffer: Buffer, text: string, from: nat, skipping: bool, mid: nat, inside: bool)
    requires Resumable(buffer, text, from, skipping, mid, inside) && Newline(text, from, mid) < mid
    ensures Resumable(buffer, text, Newline(text, from, mid) + 1, false, mid, inside)
  {
    var i := Newline(text, from, mid);
    if inside {
      var j: nat :| LineStart(text, from, j) && OversizedFrom(buffer, text, j, mid);
      if j <= i { NewlineAfter(text, j, i, mid); } else { NewlineAfter(text, from, j - 1, mid); }
      assert LineStart(text, i + 1, j);
    }
  }

  /** With no newline before it, a resumable position is the start itself or inside the
      line already counted. */
  lemma StopsInLine(buffer: Buffer, text: string, from: nat, skipping: bool, mid: nat, inside: bool)
    requires Resumable(buffer, text, from, skipping, mid, inside) && Newline(text, from, mid) == mid
    ensures if inside then skipping || from + buffer <= mid else from == mid && !skipping
  {
    if inside && !skipping {
      var j: nat :| LineStart(text, from, j) && OversizedFrom(buffer, text, j, mid);
      if from < j { NewlineAfter(text, from, j - 1, mid); }
    } else if !inside && from < mid {
      NewlineAfter(text, from, mid - 1, mid);
    }
  }

  lemma {:induction false} NewlineKept(text: string, more: string, from: nat, until: nat)
    requires from <= until <= |text| && text <= more
    ensures Newline(more, from, until) == Newline(text, from, until)
    decreases until - from
  {
    if from < until && text[from] != '\n' {
      NewlineKept(text, more, from + 1, until);
    }
  }

  lemma VerdictKept(log: Log, text: string, more: string, start: nat, end: nat, now: Time)
    requires start <= end <= |text| && text <= more
    ensures Verdict(log, more, start, end, now) == Verdict(log, text, start, end, now)
  {
    assert more[start..end] == text[start..end];
  }

  lemma FirstKept(log: Log, text: string, more: string, from: nat, until: nat, skipping: bool, clock: nat -> Time, other: nat -> Time)
    requires from < until <= |text| && text <= more && clock(from) == other(from)
    requires Newline(text, from, until) < until && Newline(more, from, until) == Newline(text, from, until)
    ensures FirstLine(log, more, from, until, skipping, other) == FirstLine(log, text, from, until, skipping, clock)
  {
    VerdictKept(log, text, more, from, Newline(text, from, until) + 1, clock(from));
  }

  /** A pass depends only on the bytes it covers and on the clock while it covers them:
      not on what is appended later. */
  lemma {:induction false} PassKept(log: Log, text: string, more: string, from: nat, until: nat, skipping: bool, clock: nat -> Time, other: nat -> Time)
    requires from <= until <= |text| && text <= more && forall i :: from <= i < until ==> clock(i) == other(i)
    ensures OnePass(log, more, from, until, skipping, other) == OnePass(log, text, from, until, skipping, clock)
    decreases until - from
  {
    NewlineKept(text, more, from, until);
    var i := Newline(text, from, until);
    if i < until {
      FirstKept(log, text, more, from, until, skipping, clock, other);
      PassLine(log, text, from, until, skipping, clock);
      PassLine(log, more, from, until, skipping, other);
      PassKept(log, text, more, i + 1, until, false, clock, other);
    } else {
      PassEnds(log, text, from, until, skipping, clock);
      PassEnds(log, more, from, until, skipping, other);
    }
  }

  lemma SliceResumable(buffer: Buffer, text: string, from: nat, start: bool, at: nat, end: nat, skipping: bool)
    requires at <= end <= |text| && Resumable(buffer, text, from, start, at, skipping)
    ensures var next := NextSlice(buffer, text, at, end);
            if next.Rest? then skipping ==> Resumable(buffer, text, from, start, end, true)
            else Resumable(buffer, text, from, start, Moved(buffer, text, at, end), next.Full?)
  {
    if NextSlice(buffer, text, at, end).Line? {
      SliceEnds(buffer, text, at, end);
    } else {
      var m := if NextSlice(buffer, text, at, end).Full? then at + buffer else end;
      if skipping {
        NewlineStops(text, from, at, m);
        if i: nat :| LineStart(text, from, i) && OversizedFrom(buffer, text, i, at) {
          NewlineStops(text, i, at, m);
          assert OversizedFrom(buffer, text, i, m);
        }
      } else if NextSlice(buffer, text, at, end).Full? {
        assert LineStart(text, from, at) && OversizedFrom(buffer, text, at, m);
      }
    }
  }

  /** The read loop stops where a later one can take over. */
  lemma ScanResumable(log: Log, text: string, start: nat, end: nat, skipping: bool, now: Time, fails: nat -> bool)
    requires start <= end <= |text|
    ensures var s := Scan(log, text, start, start, end, skipping, 0, now, fails);
            Resumable(log.buffer, text, start, skipping, s.offset, s.skipping)
  {
    var ok: (nat, bool) -> bool := (i: nat, k: bool) => Resumable(log.buffer, text, start, skipping, i, k);
    forall i: nat, k: bool {:trigger NextSlice(log.buffer, text, i, end), ok(i, k)} | i <= end && ok(i, k)
      ensures if NextSlice(log.buffer, text, i, end).Rest? then k ==> ok(end, true)
              else ok(Moved(log.buffer, text, i, end), NextSlice(log.buffer, text, i, end).Full?)
    {
      SliceResumable(log.buffer, text, start, skipping, i, end, k);
    }
    ScanKeeps(log, text, start, start, end, skipping, 0, now, fails, ok);
  }

  // ---------- identifiers ----------

  /** Events of lines that start, one after the other, in [lo, hi). */
  ghost predicate Ascending(log: Log, events: seq<Event>, lo: nat, hi: nat) {
    events == [] ||
    exists i: nat :: lo <= i < hi && events[0].id == EventId(log, i, events[0].at) && Ascending(log, events[1..], i + 1, hi)
  }

  lemma {:induction false} AscendsLower(log: Log, events: seq<Event>, lo: nat, lo': nat, hi: nat)
    requires Ascending(log, events, lo, hi) && lo' <= lo
    ensures Ascending(log, events, lo', hi)
  {}

  lemma {:induction false} PassAscends(log: Log, text: string, from: nat, until: nat, skipping: bool, clock: nat -> Time)
    requires from <= until <= |text|
    ensures Ascending(log, OnePass(log, text, from, until, skipping, clock).events, from, until)
    decreases until - from
  {
    var i := Newline(text, from, until);
    if i < until {
      PassLine(log, text, from, until, skipping, clock);
      PassAscends(log, text, i + 1, until, false, clock);
      var rest := OnePass(log, text, i + 1, until, false, clock).events;
      var line := FirstLine(log, text, from, until, skipping, clock).events;
      AscendsLower(log, rest, i + 1, from + 1, until);
      AscendsLower(log, rest, i + 1, from, until);
      if line == [] {
        assert line + rest == rest;
      } else {
        assert (line + rest)[0] == line[0] && (line + rest)[1..] == rest;
        assert line[0].id == EventId(log, from, line[0].at);
      }
    } else {
      PassEnds(log, text, from, until, skipping, clock);
    }
  }

  lemma {:induction false} EventStarts(log: Log, events: seq<Event>, lo: nat, hi: nat, e: Event) returns (i: nat)
    requires Ascending(log, events, lo, hi) && e in events
    ensures lo <= i < hi && e.id == EventId(log, i, e.at)
  {
    var j: nat :| lo <= j < hi && events[0].id == EventId(log, j, events[0].at) && Ascending(log, events[1..], j + 1, hi);
    if e == events[0] {
      i := j;
    } else {
      i := EventStarts(log, events[1..], j + 1, hi, e);
    }
  }

  /** An identifier names the generation and the start of its line. */
  lemma EventIdNames(log: Log, i: nat, at: Time, log': Log, i': nat, at': Time)
    requires Injective(log.naming) && log'.naming == log.naming && EventId(log, i, at) == EventId(log', i', at')
    ensures log.identity == log'.identity && log.generation == log'.generation && i == i' && at == at'
  {
    var a := [log.source, log.identity, Decimal(log.generation), Decimal(i), log.naming.stamp(at)];
    var b := [log'.source, log'.identity, Decimal(log'.generation), Decimal(i'), log.naming.stamp(at')];
    StableIdInjective(log.naming, a, b);
    assert a[1] == b[1] && a[2] == b[2] && a[3] == b[3] && a[4] == b[4];
    DecimalReads(log.generation);
    DecimalReads(log'.generation);
    DecimalReads(i);
    DecimalReads(i');
  }
}
