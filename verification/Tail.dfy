/** Following one access log across polls, rotations and truncations: where reading begins,
    what one poll reads, and the position and anchor it leaves for the next one, as a function
    of what the poll sees and as the object that does it. */
module Tail {
  import opened Wrappers
  import opened Clock
  import opened Ledger
  import opened SourceId
  import opened Lines

  datatype Position = Position(identity: string, offset: nat, anchor: string, generation: nat, skipping: bool)

  /** A file as opening the path finds it. */
  datatype View = View(identity: string, text: string)

  /** What a poll sees: the clock, the file under the path, the text behind the handle if
      one is open, the identity under the path afterwards, and at which offsets reading
      fails. A poll sees one text throughout. */
  datatype Look = Look(now: Time, path: Option<View>, held: string, after: Option<string>, fails: nat -> bool)

  datatype Config = Config(source: string, maxGap: int, naming: Naming, parse: string -> Option<Parsed>, buffer: Buffer)

  datatype Memory = Memory(open: bool, position: Position, restored: bool, last: Time)

  /** A digest of up to 64 bytes before the offset. */
  function Anchor(c: Config, text: string, offset: nat): string
    requires offset <= |text|
  {
    if offset == 0 then "" else StableId(c.naming, [text[if offset < 64 then 0 else offset - 64..offset]])
  }

  /** The text cannot be the one the position was taken in. */
  predicate Replaced(c: Config, p: Position, text: string) {
    |text| < p.offset || (p.anchor != "" && p.anchor != Anchor(c, text, p.offset))
  }

  /** Where reading starts: position, text and gaps noticed. */
  datatype Begin = Begin(position: Position, text: string, gaps: nat)

  /** Opening the path: a new tail starts at the end, an old one where it was, unless the
      file is another one. */
  function Opened(c: Config, m: Memory, v: View): Begin {
    if !m.restored then Begin(Position(v.identity, |v.text|, Anchor(c, v.text, |v.text|), 0, false), v.text, 0)
    else if m.position.identity != v.identity || Replaced(c, m.position, v.text) then
      Begin(Position(v.identity, 0, "", m.position.generation + 1, false), v.text, 1)
    else Begin(m.position, v.text, 0)
  }

  /** A file truncated or rewritten behind the handle starts over as a new generation. */
  function Rechecked(c: Config, b: Begin): (r: Begin)
    ensures r.position.offset <= |r.text|
  {
    if Replaced(c, b.position, b.text) then
      Begin(b.position.(offset := 0, anchor := "", skipping := false, generation := b.position.generation + 1), b.text, b.gaps + 1)
    else b
  }

  function Begun(c: Config, m: Memory, look: Look): (r: Option<Begin>)
    ensures r.Some? ==> r.value.position.offset <= |r.value.text|
  {
    if m.open then Some(Rechecked(c, Begin(m.position, look.held, 0)))
    else if look.path.None? then None
    else Some(Rechecked(c, Opened(c, m, look.path.value)))
  }

  function LogOf(c: Config, p: Position): Log { Log(c.source, p.identity, p.generation, c.naming, c.parse, c.buffer) }

  function WindowEnd(b: Begin): (end: nat)
    requires b.position.offset <= |b.text|
    ensures b.position.offset <= end <= |b.text|
  {
    if |b.text| - b.position.offset < MAX_POLL then |b.text| else b.position.offset + MAX_POLL
  }

  function Swept(c: Config, b: Begin, look: Look): (s: Scanned)
    requires b.position.offset <= |b.text|
    ensures b.position.offset <= s.offset <= |b.text|
  {
    Scan(LogOf(c, b.position), b.text, b.position.offset, b.position.offset, WindowEnd(b), b.position.skipping, 0, look.now, look.fails)
  }

  /** What a poll leaves and yields. */
  datatype Polled = Polled(memory: Memory, events: seq<Event>, dropped: nat, gaps: nat, coverage: Time, failed: bool)

  /** Following a rename is allowed once the window was read to its end. */
  predicate Rotates(p: Position, s: Scanned, look: Look) {
    look.after.Some? && look.after.value != p.identity && s.read < MAX_POLL
  }

  /** The memory after a poll whose reads all succeeded. */
  function Settled(c: Config, m: Memory, b: Begin, s: Scanned, look: Look): Memory
    requires s.offset <= |b.text|
  {
    if Rotates(b.position, s, look) then
      Memory(false, Position(look.after.value, 0, "", b.position.generation + 1, false), true, look.now)
    else
      Memory(true, b.position.(offset := s.offset, skipping := s.skipping, anchor := Anchor(c, b.text, s.offset)), NowRestored(m), look.now)
  }

  function CoverageStart(c: Config, m: Memory, gaps: nat, now: Time): Time {
    if gaps == 0 && m.last != ZERO_TIME && now - m.last <= c.maxGap then m.last else ZERO_TIME
  }

  /** Once a file is open the tail counts as restored. */
  predicate NowRestored(m: Memory) { !m.open || m.restored }

  /** The rest of a poll, once it has begun. */
  function PollFrom(c: Config, m: Memory, b: Begin, look: Look): Polled
    requires b.position.offset <= |b.text|
  {
    var s := Swept(c, b, look);
    if s.failed then
      Polled(Memory(true, b.position.(offset := s.offset, skipping := s.skipping), NowRestored(m), m.last), s.pass.events, s.pass.dropped, b.gaps, ZERO_TIME, true)
    else
      Polled(Settled(c, m, b, s, look), s.pass.events,
             s.pass.dropped + if Rotates(b.position, s, look) && |b.text| > s.offset then 1 else 0,
             b.gaps, CoverageStart(c, m, b.gaps, look.now), false)
  }

  function PollTail(c: Config, m: Memory, look: Look): Polled {
    match Begun(c, m, look)
    case None => Polled(m, [], 0, 0, ZERO_TIME, true)
    case Some(b) => PollFrom(c, m, b, look)
  }

  /** s is what was found already, and then rest. */
  ghost predicate Continues(s: Scanned, events: seq<Event>, dropped: nat, rest: Scanned) {
    && s.offset == rest.offset && s.skipping == rest.skipping && s.read == rest.read && s.failed == rest.failed
    && s.pass.events == events + rest.pass.events && s.pass.dropped == dropped + rest.pass.dropped
  }

  /** One slice further into the read loop. */
  lemma ScanGoesOn(log: Log, text: string, start: nat, at: nat, end: nat, skipping: bool, events: seq<Event>, dropped: nat, now: Time, fails: nat -> bool, s: Scanned)
    requires start <= at <= end <= |text| && Room(start, at, |events|) && !fails(at) && !NextSlice(log.buffer, text, at, end).Rest?
    requires Continues(s, events, dropped, Scan(log, text, start, at, end, skipping, |events|, now, fails))
    ensures var p := Found(log, text, at, end, skipping, now);
            Continues(s, events + p.events, dropped + p.dropped,
                      Scan(log, text, start, Moved(log.buffer, text, at, end), end, NextSlice(log.buffer, text, at, end).Full?,
                           |events + p.events|, now, fails))
  {
    var p := Found(log, text, at, end, skipping, now);
    var rest := Scan(log, text, start, Moved(log.buffer, text, at, end), end, NextSlice(log.buffer, text, at, end).Full?, |events| + |p.events|, now, fails);
    Associates(events, p.events, rest.pass.events);
  }

  lemma Associates(a: seq<Event>, b: seq<Event>, c: seq<Event>)
    ensures a + (b + c) == (a + b) + c
  {}

  class AccessTail {
    const config: Config
    var open: bool
    var position: Position
    var restored: bool
    var last: Time

    constructor (config: Config, saved: Option<Position>)
      ensures this.config == config
      ensures State() == Memory(false, if saved.Some? then saved.value else Position("", 0, "", 0, false), saved.Some?, ZERO_TIME)
    {
      this.config := config;
      open := false;
      position := if saved.Some? then saved.value else Position("", 0, "", 0, false);
      restored := saved.Some?;
      last := ZERO_TIME;
    }

    function State(): Memory
      reads this
    {
      Memory(open, position, restored, last)
    }

    method Open(v: View) returns (gaps: nat)
      modifies this`open, this`position, this`restored
      ensures var b := Opened(config, old(State()), v); State() == Memory(true, b.position, true, old(last)) && gaps == b.gaps
    {
      gaps := 0;
      if !restored {
        position := Position(v.identity, |v.text|, Anchor(config, v.text, |v.text|), 0, false);
      } else if position.identity != v.identity || |v.text| < position.offset
                || (position.anchor != "" && position.anchor != Anchor(config, v.text, position.offset)) {
        gaps := 1;
        position := Position(v.identity, 0, "", position.generation + 1, false);
      }
      restored := true;
      open := true;
    }

    /** Open the path if need be, and start over where the text was replaced. */
    method Start(look: Look) returns (text: string, gaps: nat, ok: bool)
      modifies this`open, this`position, this`restored
      ensures ok <==> Begun(config, old(State()), look).Some?
      ensures ok ==> Begun(config, old(State()), look) == Some(Begin(position, text, gaps)) && open && restored == NowRestored(old(State()))
      ensures !ok ==> State() == old(State()) && gaps == 0
    {
      text, gaps, ok := look.held, 0, true;
      if !open {
        if look.path.None? {
          return "", 0, false;
        }
        text := look.path.value.text;
        gaps := Open(look.path.value);
      }
      if |text| < position.offset || (position.anchor != "" && position.anchor != Anchor(config, text, position.offset)) {
        position := position.(offset := 0, anchor := "", skipping := false, generation := position.generation + 1);
        gaps := gaps + 1;
      }
    }

    /** One slice of the read loop. */
    method Take(log: Log, text: string, end: nat, now: Time) returns (found: Pass)
      requires position.offset <= end <= |text| && !NextSlice(log.buffer, text, position.offset, end).Rest?
      modifies this`position
      ensures var p := old(position);
              && found == Found(log, text, p.offset, end, p.skipping, now)
              && position == p.(offset := Moved(log.buffer, text, p.offset, end), skipping := NextSlice(log.buffer, text, p.offset, end).Full?)
    {
      var start := position.offset;
      var slice := NextSlice(log.buffer, text, start, end);
      found := Pass([], 0);
      if slice.Full? {
        if !position.skipping {
          found := Pass([], 1);
        }
        position := position.(skipping := true, offset := start + log.buffer);
        return;
      }
      position := position.(offset := start + slice.length);
      if position.skipping {
        position := position.(skipping := false);
        return;
      }
      var event := Judge(log, text, start, position.offset, now);
      found := if event.Some? then Pass([event.value], 0) else Pass([], 1);
    }

    /** The read loop. */
    method ReadLines(text: string, end: nat, now: Time, fails: nat -> bool) returns (events: seq<Event>, dropped: nat, read: nat, failed: bool)
      requires position.offset <= end <= |text|
      modifies this`position
      ensures var p := old(position);
              var s := Scan(LogOf(config, p), text, p.offset, p.offset, end, p.skipping, 0, now, fails);
              && Scanned(position.offset, position.skipping, Pass(events, dropped), read, failed) == s
              && position == p.(offset := s.offset, skipping := s.skipping)
    {
      ghost var p := position;
      var log := LogOf(config, position);
      var start := position.offset;
      ghost var s := Scan(log, text, start, start, end, position.skipping, 0, now, fails);
      events, dropped, read, failed := [], 0, 0, false;
      while read < MAX_POLL && |events| < MAX_EVENTS
        invariant start <= position.offset <= end && read == position.offset - start
        invariant position == p.(offset := position.offset, skipping := position.skipping)
        invariant Continues(s, events, dropped, Scan(log, text, start, position.offset, end, position.skipping, |events|, now, fails))
        decreases end - position.offset
      {
        var at := position.offset;
        if fails(at) {
          failed := true;
          return;
        }
        var slice := NextSlice(log.buffer, text, at, end);
        if slice.Rest? {
          read := read + slice.length;
          if position.skipping {
            position := position.(offset := at + slice.length);
          }
          return;
        }
        ScanGoesOn(log, text, start, at, end, position.skipping, events, dropped, now, fails, s);
        var found := Take(log, text, end, now);
        events, dropped := events + found.events, dropped + found.dropped;
        read := read + position.offset - at;
      }
    }

    /** Follow a rename, or fix the anchor of the position reached. */
    method Finish(text: string, look: Look, gaps: nat, read: nat) returns (dropped: nat, coverage: Time)
      requires position.offset <= |text| && open
      modifies this
      ensures var m := old(State());
              var rotates := look.after.Some? && look.after.value != m.position.identity && read < MAX_POLL;
              && (rotates ==> State() == Memory(false, Position(look.after.value, 0, "", m.position.generation + 1, false), true, look.now))
              && (!rotates ==> State() == Memory(true, m.position.(anchor := Anchor(config, text, m.position.offset)), m.restored, look.now))
              && dropped == (if rotates && |text| > m.position.offset then 1 else 0)
              && coverage == CoverageStart(config, m, gaps, look.now)
    {
      dropped, coverage := 0, ZERO_TIME;
      if look.after.Some? && look.after.value != position.identity && read < MAX_POLL {
        if |text| > position.offset {
          dropped := 1;
        }
        open := false;
        position := Position(look.after.value, 0, "", position.generation + 1, false);
        restored := true;
      }
      if open {
        position := position.(anchor := Anchor(config, text, position.offset));
      }
      if gaps == 0 && last != ZERO_TIME && look.now - last <= config.maxGap {
        coverage := last;
      }
      last := look.now;
    }

    /** Read on from where the poll has begun. */
    method Sweep(text: string, look: Look, gaps: nat, ghost m: Memory) returns (events: seq<Event>, dropped: nat, coverage: Time, failed: bool)
      requires position.offset <= |text| && open && restored == NowRestored(m) && last == m.last
      modifies this
      ensures Polled(State(), events, dropped, gaps, coverage, failed) == PollFrom(config, m, Begin(old(position), text, gaps), look)
    {
      ghost var b := Begin(position, text, gaps);
      coverage := ZERO_TIME;
      var end := if |text| - position.offset < MAX_POLL then |text| else position.offset + MAX_POLL;
      var read;
      events, dropped, read, failed := ReadLines(text, end, look.now, look.fails);
      assert Swept(config, b, look) == Scanned(position.offset, position.skipping, Pass(events, dropped), read, failed);
      if failed {
        return;
      }
      var left;
      left, coverage := Finish(text, look, gaps, read);
      dropped := dropped + left;
    }

    /** One poll. On a failed read the position keeps what the loop had advanced. */
    method Poll(look: Look) returns (events: seq<Event>, dropped: nat, gaps: nat, coverage: Time, failed: bool)
      modifies this
      ensures Polled(State(), events, dropped, gaps, coverage, failed) == PollTail(config, old(State()), look)
    {
      ghost var m := State();
      events, dropped, coverage, failed := [], 0, ZERO_TIME, true;
      var text, ok;
      text, gaps, ok := Start(look);
      if ok {
        events, dropped, coverage, failed := Sweep(text, look, gaps, m);
      }
    }
  }
}
