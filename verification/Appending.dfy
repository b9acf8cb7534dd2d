/** A log that is only appended to. */
module Appending {
  import opened Wrappers
  import opened Clock
  import opened Ledger
  import opened SourceId
  import opened Lines
  import opened Tail
  import opened TailRuns

  // On one file that only grows, no line is ever committed twice, exactly unless some poll
  // whose status was committed failed behind its first byte, at another window of bytes.

  /** The path always names one file, and each poll sees what the last one saw, and perhaps more. */
  predicate OneFile(identity: string, look: Look) {
    (look.path.Some? ==> look.path.value == View(identity, look.held)) && (look.after.Some? ==> look.after.value == identity)
  }

  predicate AppendOnly(identity: string, acts: seq<Act>) {
    && (forall i :: 0 <= i < |acts| && acts[i].Poll? ==> OneFile(identity, acts[i].look))
    && forall i, j :: 0 <= i < j < |acts| && acts[i].Poll? && acts[j].Poll? ==> acts[i].look.held <= acts[j].look.held
  }

  function LastText(acts: seq<Act>): string {
    if acts == [] then ""
    else if acts[|acts| - 1].Poll? then acts[|acts| - 1].look.held
    else LastText(acts[..|acts| - 1])
  }

  /** The poll gets to a failing boundary and leaves the anchor behind, where other bytes precede. */
  predicate Loses(c: Config, m: Memory, look: Look) {
    var b := Begun(c, m, look);
    && b.Some? && b.value.position.anchor != "" && Breaks(c, b.value, look)
    && Window(b.value.text, b.value.position.offset) != Window(b.value.text, FailurePoint(c, b.value, look).value)
  }

  /** A poll that loses its place fails, and stops at that boundary. */
  lemma LosingFails(c: Config, m: Memory, look: Look)
    requires Begun(c, m, look).Some?
    ensures Loses(c, m, look) ==> PollTail(c, m, look).failed
    ensures PollTail(c, m, look).failed ==>
              var b := Begun(c, m, look).value;
              Breaks(c, b, look) && FailurePoint(c, b, look) == Some(Swept(c, b, look).offset)
  {
    BreaksIff(c, Begun(c, m, look).value, look);
  }

  predicate LosesAt(c: Config, acts: seq<Act>, i: nat)
    requires i < |acts|
  {
    acts[i].Poll? && acts[i].committed && Loses(c, Run(c, acts[..i]).memory, acts[i].look)
  }

  predicate NeverLoses(c: Config, acts: seq<Act>) { forall i :: 0 <= i < |acts| ==> !LosesAt(c, acts, i) }

  // ---------- the tail keeps to the file ----------

  /** A position of the first generation in the file, with an anchor that fits or none. */
  predicate Fits(c: Config, identity: string, text: string, p: Position) {
    && p.identity == identity && p.generation == 0 && p.offset <= |text|
    && (p.anchor == "" || p.anchor == Anchor(c, text, p.offset))
  }

  predicate Grown(identity: string, text: string, es: seq<Entry>) {
    && (forall i :: 0 <= i < |es| ==> Generation(es[i]) == 0 && es[i].begin.text <= text)
    && forall i, j :: 0 <= i < j < |es| ==> es[i].begin.text <= es[j].begin.text
  }

  predicate Follows(c: Config, identity: string, text: string, l: Life) {
    && (l.memory.open ==> l.memory.restored)
    && (l.memory.restored ==> Fits(c, identity, text, l.memory.position))
    && (l.saved.Some? ==> Fits(c, identity, text, l.saved.value))
    && Grown(identity, text, l.entries)
  }

  lemma FitsMore(c: Config, identity: string, text: string, more: string, p: Position)
    requires Fits(c, identity, text, p) && text <= more
    ensures Fits(c, identity, more, p)
  {
    AnchorKept(c, text, more, p.offset);
  }

  lemma FollowsMore(c: Config, identity: string, text: string, more: string, l: Life)
    requires Follows(c, identity, text, l) && text <= more
    ensures Follows(c, identity, more, l)
  {
    if l.memory.restored { FitsMore(c, identity, text, more, l.memory.position); }
    if l.saved.Some? { FitsMore(c, identity, text, more, l.saved.value); }
  }

  lemma BegunFits(c: Config, identity: string, m: Memory, look: Look)
    requires OneFile(identity, look) && Begun(c, m, look).Some? && (m.open ==> m.restored)
    requires m.restored ==> Fits(c, identity, look.held, m.position)
    ensures var b := Begun(c, m, look).value;
            b.text == look.held && Fits(c, identity, look.held, b.position) && (m.restored ==> b.position == m.position)
  {}

  /** A poll that loses nothing leaves a position that fits. */
  lemma PollFits(c: Config, identity: string, m: Memory, look: Look)
    requires OneFile(identity, look) && Begun(c, m, look).Some? && (m.open ==> m.restored) && !Loses(c, m, look)
    requires m.restored ==> Fits(c, identity, look.held, m.position)
    ensures var after := PollTail(c, m, look).memory; after.restored && Fits(c, identity, look.held, after.position)
  {
    BegunFits(c, identity, m, look);
    LosingFails(c, m, look);
  }

  lemma EntryGrows(identity: string, text: string, es: seq<Entry>, e: Entry)
    requires Grown(identity, text, es) && Generation(e) == 0 && e.begin.text == text
    ensures Grown(identity, text, es + [e])
  {}

  lemma StepFollows(c: Config, identity: string, l: Life, a: Act)
    requires a.Poll? && OneFile(identity, a.look) && Follows(c, identity, a.look.held, l)
    requires a.committed ==> !Loses(c, l.memory, a.look)
    ensures Follows(c, identity, a.look.held, Step(c, l, a))
  {
    if a.committed && Begun(c, l.memory, a.look).Some? {
      var b := Begun(c, l.memory, a.look).value;
      BegunFits(c, identity, l.memory, a.look);
      PollFits(c, identity, l.memory, a.look);
      EntryGrows(identity, a.look.held, l.entries, Entry(b, Swept(c, b, a.look), a.look.now));
    }
  }

  lemma {:induction false} LastTextIs(acts: seq<Act>, a: Act)
    requires a.Poll? && forall i :: 0 <= i < |acts| && acts[i].Poll? ==> acts[i].look.held <= a.look.held
    ensures LastText(acts) <= a.look.held
  {
    if acts != [] && !acts[|acts| - 1].Poll? {
      LastTextIs(acts[..|acts| - 1], a);
    }
  }

  lemma Front(c: Config, identity: string, acts: seq<Act>)
    requires AppendOnly(identity, acts) && acts != [] && NeverLoses(c, acts[..|acts| - 1])
    ensures AppendOnly(identity, acts[..|acts| - 1])
    ensures acts[|acts| - 1].Poll? ==> LastText(acts[..|acts| - 1]) <= acts[|acts| - 1].look.held
  {
    if acts[|acts| - 1].Poll? { LastTextIs(acts[..|acts| - 1], acts[|acts| - 1]); }
  }

  lemma NeverLosesFront(c: Config, acts: seq<Act>)
    requires NeverLoses(c, acts) && acts != []
    ensures NeverLoses(c, acts[..|acts| - 1])
  {
    var before := acts[..|acts| - 1];
    forall i | 0 <= i < |before| ensures !LosesAt(c, before, i) {
      assert before[..i] == acts[..i] && !LosesAt(c, acts, i);
    }
  }

  lemma {:induction false} RunFollows(c: Config, identity: string, acts: seq<Act>)
    requires AppendOnly(identity, acts) && NeverLoses(c, acts)
    ensures Follows(c, identity, LastText(acts), Run(c, acts))
  {
    if acts != [] {
      var before, a := acts[..|acts| - 1], acts[|acts| - 1];
      NeverLosesFront(c, acts);
      Front(c, identity, acts);
      RunFollows(c, identity, before);
      if a.Poll? {
        assert !LosesAt(c, acts, |before|);
        FollowsMore(c, identity, LastText(before), a.look.held, Run(c, before));
        StepFollows(c, identity, Run(c, before), a);
      }
    }
  }

  // ---------- no line twice ----------

  /** The committed polls consumed stretches of the file one behind the other. */
  predicate Disjoint(es: seq<Entry>) { forall i, j :: 0 <= i < j < |es| ==> Until(es[i]) <= From(es[j]) }

  predicate FirstGeneration(es: seq<Entry>) { forall i :: 0 <= i < |es| ==> Generation(es[i]) == 0 }

  /** On a file that only grows, unless a failing poll loses its place, the generation never
      changes and no two committed polls have read the same byte, whatever else fails. */
  lemma NoByteTwice(c: Config, identity: string, acts: seq<Act>)
    requires AppendOnly(identity, acts) && NeverLoses(c, acts)
    ensures FirstGeneration(Run(c, acts).entries) && Disjoint(Run(c, acts).entries)
  {
    RunFollows(c, identity, acts);
    RunAdvances(c, acts);
    var es := Run(c, acts).entries;
    forall i, j | 0 <= i < j < |es| ensures Until(es[i]) <= From(es[j]) {
      assert Precedes(es[i], es[j]);
    }
  }

  /** One more poll whose batch is committed. */
  function Extended(acts: seq<Act>, look: Look): seq<Act> { acts + [Poll(look, true)] }

  /** Whatever the next poll finds appended, it goes on in the first generation. */
  ghost predicate GoesOn(c: Config, identity: string, acts: seq<Act>) {
    forall look :: AppendOnly(identity, Extended(acts, look)) ==> FirstGeneration(Run(c, Extended(acts, look)).entries)
  }

  lemma RunExtended(c: Config, acts: seq<Act>, look: Look)
    ensures Run(c, Extended(acts, look)) == Step(c, Run(c, acts), Poll(look, true))
  {
    assert Extended(acts, look)[..|acts|] == acts;
  }

  lemma NextFollows(c: Config, identity: string, text: string, l: Life, look: Look)
    requires Follows(c, identity, text, l) && text <= look.held && OneFile(identity, look)
    ensures FirstGeneration(Step(c, l, Poll(look, true)).entries)
  {
    FollowsMore(c, identity, text, look.held, l);
    if Begun(c, l.memory, look).Some? { BegunFits(c, identity, l.memory, look); }
  }

  lemma FollowedGoesOn(c: Config, identity: string, acts: seq<Act>)
    requires AppendOnly(identity, acts) && NeverLoses(c, acts)
    ensures GoesOn(c, identity, acts)
  {
    RunFollows(c, identity, acts);
    forall look | AppendOnly(identity, Extended(acts, look)) ensures FirstGeneration(Run(c, Extended(acts, look)).entries) {
      var all := Extended(acts, look);
      assert all[|acts|].look == look && all[..|acts|] == acts;
      Front(c, identity, all);
      RunExtended(c, acts, look);
      NextFollows(c, identity, LastText(acts), Run(c, acts), look);
    }
  }

  /** The memory a losing poll leaves behind takes the file for another one. */
  lemma LostMemory(c: Config, identity: string, m: Memory, look: Look, next: Look)
    requires Injective(c.naming) && OneFile(identity, look) && (m.open ==> m.restored) && Loses(c, m, look)
    requires m.restored ==> Fits(c, identity, look.held, m.position)
    requires look.held <= next.held
    ensures var after := PollTail(c, m, look).memory;
            after.open && Begun(c, after, next) == Some(Begin(Position(identity, 0, "", 1, false), next.held, 1))
  {
    BegunFits(c, identity, m, look);
    LosingFails(c, m, look);
    var b := Begun(c, m, look).value;
    var s := Swept(c, b, look);
    if Anchor(c, look.held, b.position.offset) == Anchor(c, look.held, s.offset) {
      StableIdInjective(c.naming, [Window(look.held, b.position.offset)], [Window(look.held, s.offset)]);
    }
    AnchorKept(c, look.held, next.held, s.offset);
  }

  /** Where the last poll of a run that has kept its place stands. */
  lemma FrontFits(c: Config, identity: string, acts: seq<Act>)
    requires AppendOnly(identity, acts) && acts != [] && acts[|acts| - 1].Poll? && NeverLoses(c, acts[..|acts| - 1])
    ensures var m := Run(c, acts[..|acts| - 1]).memory;
            var look := acts[|acts| - 1].look;
            && OneFile(identity, look) && (m.open ==> m.restored) && (m.restored ==> Fits(c, identity, look.held, m.position))
  {
    Front(c, identity, acts);
    RunFollows(c, identity, acts[..|acts| - 1]);
    FollowsMore(c, identity, LastText(acts[..|acts| - 1]), acts[|acts| - 1].look.held, Run(c, acts[..|acts| - 1]));
  }

  lemma BegunIgnoresLast(c: Config, m: Memory, look: Look, last: Time)
    ensures Begun(c, m.(last := last), look) == Begun(c, m, look)
  {}

  lemma LosingStep(c: Config, l: Life, look: Look)
    requires Loses(c, l.memory, look)
    ensures Step(c, l, Poll(look, true)) == l.(memory := PollTail(c, l.memory, look).memory.(last := ZERO_TIME))
  {
    LosingFails(c, l.memory, look);
  }

  /** After a poll that lost its place the next one begins at the first byte. */
  lemma LostBegins(c: Config, identity: string, acts: seq<Act>, next: Look)
    requires Injective(c.naming) && acts != [] && AppendOnly(identity, Extended(acts, next))
    requires NeverLoses(c, acts[..|acts| - 1]) && LosesAt(c, acts, |acts| - 1)
    ensures Begun(c, Run(c, acts).memory, next) == Some(Begin(Position(identity, 0, "", 1, false), next.held, 1))
    ensures Run(c, acts).entries == Run(c, acts[..|acts| - 1]).entries
  {
    var l, look := Run(c, acts[..|acts| - 1]), acts[|acts| - 1].look;
    var all := Extended(acts, next);
    assert all[..|acts|] == acts && all[|acts|].look == next;
    assert look.held <= next.held by { assert all[|acts| - 1] == acts[|acts| - 1]; }
    AppendOnlyPrefix(identity, all, |acts|);
    FrontFits(c, identity, acts);
    LostMemory(c, identity, l.memory, look, next);
    BegunIgnoresLast(c, PollTail(c, l.memory, look).memory, next, ZERO_TIME);
    LosingStep(c, l, look);
  }

  /** After a poll that lost its place, the next one that succeeds commits the whole file
      again, from its first byte, as a new generation. */
  lemma LostRereads(c: Config, identity: string, acts: seq<Act>, next: Look)
    requires Injective(c.naming) && acts != [] && AppendOnly(identity, Extended(acts, next))
    requires NeverLoses(c, acts[..|acts| - 1]) && LosesAt(c, acts, |acts| - 1) && forall i :: !next.fails(i)
    ensures var es := Run(c, Extended(acts, next)).entries;
            && |es| == |Run(c, acts).entries| + 1 && es[..|es| - 1] == Run(c, acts).entries
            && var b := Begin(Position(identity, 0, "", 1, false), next.held, 1); es[|es| - 1] == Entry(b, Swept(c, b, next), next.now)
  {
    LostBegins(c, identity, acts, next);
    RunExtended(c, acts, next);
    var b := Begun(c, Run(c, acts).memory, next).value;
    if Swept(c, b, next).failed { SweptFails(c, b, next); }
  }

  lemma AppendOnlyPrefix(identity: string, acts: seq<Act>, n: nat)
    requires AppendOnly(identity, acts) && n <= |acts|
    ensures AppendOnly(identity, acts[..n])
  {}

  /** Exactly when: after a run that has not lost its place, the next act loses it if and
      only if some later state of the file makes the tail commit it again from the start. */
  lemma RereadsIff(c: Config, identity: string, acts: seq<Act>)
    requires Injective(c.naming) && acts != [] && AppendOnly(identity, acts) && NeverLoses(c, acts[..|acts| - 1])
    ensures GoesOn(c, identity, acts) <==> !LosesAt(c, acts, |acts| - 1)
  {
    if LosesAt(c, acts, |acts| - 1) {
      var text := acts[|acts| - 1].look.held;
      var next := Look(0, None, text, None, _ => false);
      ExtendedAppends(identity, acts, next);
      LostRereads(c, identity, acts, next);
    } else {
      forall i | 0 <= i < |acts| ensures !LosesAt(c, acts, i) {
        if i < |acts| - 1 { assert acts[..|acts| - 1][..i] == acts[..i] && !LosesAt(c, acts[..|acts| - 1], i); }
      }
      FollowedGoesOn(c, identity, acts);
    }
  }

  lemma ExtendedAppends(identity: string, acts: seq<Act>, next: Look)
    requires AppendOnly(identity, acts) && acts != [] && acts[|acts| - 1].Poll? && OneFile(identity, next)
    requires acts[|acts| - 1].look.held <= next.held
    ensures AppendOnly(identity, Extended(acts, next))
  {
    var all := Extended(acts, next);
    forall i, j | 0 <= i < j < |all| && all[i].Poll? && all[j].Poll? ensures all[i].look.held <= all[j].look.held {
      if j == |acts| && i < |acts| - 1 { assert acts[i].look.held <= acts[|acts| - 1].look.held; }
    }
  }

  // ---------- every line once ----------

  lemma HarmlessNeverLoses(c: Config, acts: seq<Act>)
    requires AllHarmless(c, acts)
    ensures NeverLoses(c, acts)
  {
    forall i | 0 <= i < |acts| ensures !LosesAt(c, acts, i) {
      var l := Run(c, acts[..i]);
      assert Harmless(c, l, acts[i]);
      if acts[i].Poll? && Begun(c, l.memory, acts[i].look).Some? { LosingFails(c, l.memory, acts[i].look); }
    }
  }

  lemma WholeIsBlock(identity: string, text: string, es: seq<Entry>)
    requires Grown(identity, text, es) && es != []
    ensures IsBlock(es, 0, |es|) && OnlyGrows(es, 0, |es|)
  {}

  lemma WholeExactlyOnce(c: Config, es: seq<Entry>)
    requires es != [] && IsBlock(es, 0, |es|) && ExactlyOnce(c, es, 0, |es|)
    ensures var last := es[|es| - 1];
            && From(es[0]) <= Until(last) <= |last.begin.text|
            && PassOf(es) == OnePass(LogOf(c, last.begin.position), last.begin.text, From(es[0]), Until(last), false, ClockOf(es))
            && Placed(c.buffer, last.begin.text, From(es[0]), Until(last), last.scanned.skipping)
  {
    assert es[0..|es|] == es;
  }

  /** On a file that only grows, when reads only ever fail at a poll's first byte, all the
      committed polls of the run together found exactly what one pass finds over the file
      from where tailing began up to the committed offset: each line counts exactly once. */
  lemma AppendedExactlyOnce(c: Config, identity: string, acts: seq<Act>)
    requires AppendOnly(identity, acts) && AllHarmless(c, acts) && Run(c, acts).entries != []
    ensures var es := Run(c, acts).entries;
            var last := es[|es| - 1];
            && From(es[0]) <= Until(last) <= |last.begin.text| && last.begin.text <= LastText(acts)
            && PassOf(es) == OnePass(LogOf(c, last.begin.position), last.begin.text, From(es[0]), Until(last), false, ClockOf(es))
            && Placed(c.buffer, last.begin.text, From(es[0]), Until(last), last.scanned.skipping)
  {
    HarmlessNeverLoses(c, acts);
    RunFollows(c, identity, acts);
    var es := Run(c, acts).entries;
    WholeIsBlock(identity, LastText(acts), es);
    CommittedExactlyOnce(c, acts, 0, |es|);
    WholeExactlyOnce(c, es);
  }

  // ---------- the failing case ----------

  /** A line of the log on its own. */
  predicate IsLine(line: string, buffer: Buffer) { LineAt(line, 0, |line|) && 3 <= |line| <= buffer && |line| < 1000 }

  function Sees(text: string, now: Time, fails: nat -> bool): Look { Look(now, Some(View("f", text)), text, Some("f"), fails) }

  function Grows(line: string): string { line + "b\nc\n" }

  /** The four polls: opened empty; one line; two more lines, the last of them unreadable;
      all of them. */
  function TwiceLook(line: string, clock: nat -> Time, i: nat): Look {
    Sees(if i == 0 then "" else if i == 1 then line else Grows(line), clock(i), (o: nat) => i == 2 && o == |line| + 2)
  }

  function TwiceRun(line: string, clock: nat -> Time, n: nat): seq<Act> {
    if n == 0 then [] else TwiceRun(line, clock, n - 1) + [Poll(TwiceLook(line, clock, n - 1), true)]
  }

  lemma LineIsFound(log: Log, text: string, at: nat, n: nat, now: Time)
    requires LineAt(text, at, n) && n <= log.buffer
    ensures NextSlice(log.buffer, text, at, |text|) == Line(n) && Moved(log.buffer, text, at, |text|) == at + n
    ensures Found(log, text, at, |text|, false, now) == Verdict(log, text, at, at + n, now)
  {
    LineIsSlice(log.buffer, text, at, n, |text|);
  }

  lemma OneLine(log: Log, text: string, start: nat, at: nat, n: nat, found: nat, now: Time, fails: nat -> bool)
    requires start <= at && LineAt(text, at, n) && n <= log.buffer && Room(start, at, found) && !fails(at)
    ensures var p := Verdict(log, text, at, at + n, now);
            var rest := Scan(log, text, start, at + n, |text|, false, found + |p.events|, now, fails);
            var s := Scan(log, text, start, at, |text|, false, found, now, fails);
            s.offset == rest.offset && s.failed == rest.failed && s.read == rest.read && s.pass.events == p.events + rest.pass.events
  {
    LineIsFound(log, text, at, n, now);
    ScanNext(log, text, start, at, |text|, false, found, now, fails);
  }

  lemma NoLine(log: Log, text: string, start: nat, n: nat, now: Time, fails: nat -> bool)
    requires start <= |text| && Room(start, |text|, n) && !fails(|text|)
    ensures Scan(log, text, start, |text|, |text|, false, n, now, fails) == Scanned(|text|, false, Pass([], 0), |text| - start, false)
  {}

  /** What the line says, and who says it. */
  predicate Says(c: Config, line: string, p: Parsed, now: Time) { IsLine(line, c.buffer) && c.parse(line) == Some(p) && p.at <= now }

  function Empty(now: Time): Memory { Memory(true, Position("f", 0, "", 0, false), true, now) }

  /** A new tail opens the empty file at its start. */
  lemma OpensEmpty(c: Config, look: Look)
    requires look == Sees("", look.now, look.fails) && forall i :: !look.fails(i)
    ensures Begun(c, Fresh(None), look).Some?
    ensures PollTail(c, Fresh(None), look) == Polled(Empty(look.now), [], 0, 0, ZERO_TIME, false)
  {
    var b := Begun(c, Fresh(None), look).value;
    assert b == Begin(Position("f", 0, "", 0, false), "", 0);
    NoLine(LogOf(c, b.position), "", 0, 0, look.now, look.fails);
  }

  /** The next poll finds the line. */
  lemma ReadsLine(c: Config, line: string, look: Look, p: Parsed, before: Time)
    requires Says(c, line, p, look.now)
    requires look == Sees(line, look.now, look.fails) && forall i :: !look.fails(i)
    ensures var b := Begun(c, Empty(before), look).value;
            var s := Swept(c, b, look);
            && b == Begin(Empty(before).position, line, 0) && s.offset == |line|
            && s.pass.events == [Event(EventId(LogOf(c, b.position), 0, p.at), p.at, p.dims, 1)]
    ensures var after := PollTail(c, Empty(before), look);
            && !after.failed && Anchored(c, after.memory, line) && after.memory.last == look.now
            && after.events == Swept(c, Begun(c, Empty(before), look).value, look).pass.events
            && after.coverage == CoverageStart(c, Empty(before), 0, look.now)
            && after.memory.position.offset == |line| && after.memory.position.generation == 0 && !after.memory.position.skipping
  {
    var b := Begun(c, Empty(before), look).value;
    assert b == Begin(Empty(before).position, line, 0);
    var log := LogOf(c, b.position);
    assert line[0..|line|] == line;
    OneLine(log, line, 0, 0, |line|, 0, look.now, look.fails);
    NoLine(log, line, 0, 1, look.now, look.fails);
  }

  /** The third byte from the end of the one window is a newline, of the other it is not. */
  lemma OtherWindow(line: string, buffer: Buffer)
    requires IsLine(line, buffer)
    ensures Window(Grows(line), |line|) != Window(Grows(line), |line| + 2)
  {
    var text := Grows(line);
    var v, w := Window(text, |line|), Window(text, |line| + 2);
    assert w[|w| - 3] == text[|line| - 1] == '\n';
    assert v[|v| - 3] == text[|line| - 3] != '\n';
  }

  /** The poll after it consumes the second line and fails at the third. */
  lemma FailsLater(c: Config, m: Memory, line: string, look: Look)
    requires IsLine(line, c.buffer) && Anchored(c, m, line) && m.position.offset == |line| && !m.position.skipping && m.position.anchor != ""
    requires look == Sees(Grows(line), look.now, look.fails) && forall i :: look.fails(i) <==> i == |line| + 2
    ensures Loses(c, m, look) && PollTail(c, m, look).failed
  {
    var text := look.held;
    AnchorKept(c, line, text, |line|);
    var b := Begun(c, m, look).value;
    assert b == Begin(m.position, text, 0);
    OneLine(LogOf(c, b.position), text, |line|, |line|, 2, 0, look.now, look.fails);
    assert Swept(c, b, look).failed && Swept(c, b, look).offset == |line| + 2;
    BreaksIff(c, b, look);
    OtherWindow(line, c.buffer);
  }

  /** The first line of a text that begins with it. */
  lemma ReadsFirst(c: Config, b: Begin, line: string, look: Look, p: Parsed)
    requires Says(c, line, p, look.now) && !b.position.skipping
    requires b.position.offset == 0 && line <= b.text && |b.text| < MAX_POLL && !look.fails(0)
    ensures var s := Swept(c, b, look);
            |line| <= s.offset && |s.pass.events| > 0 && s.pass.events[0].(id := "") == Event("", p.at, p.dims, 1)
  {
    var log := LogOf(c, b.position);
    assert b.text[0..|line|] == line;
    OneLine(log, b.text, 0, 0, |line|, 0, look.now, look.fails);
  }

  lemma {:induction false} TwiceAct(line: string, clock: nat -> Time, n: nat, i: nat)
    requires i < n
    ensures |TwiceRun(line, clock, n)| == n && TwiceRun(line, clock, n)[i] == Poll(TwiceLook(line, clock, i), true)
  {
    TwiceLength(line, clock, n - 1);
    if i < n - 1 {
      TwiceAct(line, clock, n - 1, i);
    }
  }

  lemma {:induction false} TwiceLength(line: string, clock: nat -> Time, n: nat)
    ensures |TwiceRun(line, clock, n)| == n
  {
    if n > 0 {
      TwiceLength(line, clock, n - 1);
    }
  }

  lemma TwiceAppends(line: string, clock: nat -> Time, n: nat)
    ensures AppendOnly("f", TwiceRun(line, clock, n))
  {
    TwiceLength(line, clock, n);
    forall i | 0 <= i < n ensures TwiceRun(line, clock, n)[i] == Poll(TwiceLook(line, clock, i), true) {
      TwiceAct(line, clock, n, i);
    }
    assert "" <= line <= Grows(line);
  }

  lemma UnfailingNeverLoses(c: Config, acts: seq<Act>)
    requires forall i, o: nat :: 0 <= i < |acts| && acts[i].Poll? ==> !acts[i].look.fails(o)
    ensures NeverLoses(c, acts)
  {}

  lemma TwoNeverLose(c: Config, line: string, clock: nat -> Time)
    ensures NeverLoses(c, TwiceRun(line, clock, 2))
  {
    TwiceLength(line, clock, 2);
    TwiceAct(line, clock, 2, 0);
    TwiceAct(line, clock, 2, 1);
    UnfailingNeverLoses(c, TwiceRun(line, clock, 2));
  }

  /** One poll more. */
  lemma TwiceNext(c: Config, line: string, clock: nat -> Time, n: nat)
    ensures TwiceRun(line, clock, n + 1) == Extended(TwiceRun(line, clock, n), TwiceLook(line, clock, n))
    ensures Run(c, TwiceRun(line, clock, n + 1)) == Step(c, Run(c, TwiceRun(line, clock, n)), Poll(TwiceLook(line, clock, n), true))
  {
    RunExtended(c, TwiceRun(line, clock, n), TwiceLook(line, clock, n));
  }

  lemma OpeningStep(c: Config, look: Look)
    requires look == Sees("", look.now, look.fails) && forall i :: !look.fails(i)
    ensures var l := Step(c, Run(c, []), Poll(look, true)); |l.entries| == 1 && l.memory == Empty(look.now)
  {
    OpensEmpty(c, look);
    assert Run(c, []) == Life(Fresh(None), None, []);
  }

  lemma FirstPoll(c: Config, line: string, clock: nat -> Time)
    ensures var l := Run(c, TwiceRun(line, clock, 1)); |l.entries| == 1 && l.memory == Empty(clock(0))
  {
    TwiceNext(c, line, clock, 0);
    assert TwiceRun(line, clock, 0) == [];
    OpeningStep(c, TwiceLook(line, clock, 0));
  }

  lemma TwoPolls(c: Config, line: string, clock: nat -> Time, p: Parsed)
    requires Says(c, line, p, clock(1))
    ensures var l := Run(c, TwiceRun(line, clock, 2));
            && |l.entries| == 2 && From(l.entries[1]) == 0 && Until(l.entries[1]) == |line| && Generation(l.entries[1]) == 0
            && |l.entries[1].scanned.pass.events| == 1 && l.entries[1].scanned.pass.events[0].(id := "") == Event("", p.at, p.dims, 1)
            && Anchored(c, l.memory, line)
            && l.memory.position.offset == |line| && l.memory.position.generation == 0 && !l.memory.position.skipping
  {
    FirstPoll(c, line, clock);
    TwiceNext(c, line, clock, 1);
    ReadsLine(c, line, TwiceLook(line, clock, 1), p, clock(0));
  }

  lemma ThirdPoll(c: Config, line: string, clock: nat -> Time, p: Parsed)
    requires (forall s :: c.naming.digest(s) != "") && Says(c, line, p, clock(1))
    ensures var acts := TwiceRun(line, clock, 3);
            |acts| == 3 && acts[..2] == TwiceRun(line, clock, 2) && LosesAt(c, acts, 2) && Run(c, acts).entries == Run(c, acts[..2]).entries
  {
    var before, acts := TwiceRun(line, clock, 2), TwiceRun(line, clock, 3);
    TwoPolls(c, line, clock, p);
    TwiceNext(c, line, clock, 2);
    TwiceLength(line, clock, 2);
    assert acts[..2] == before && acts[2] == Poll(TwiceLook(line, clock, 2), true);
    FailsLater(c, Run(c, before).memory, line, TwiceLook(line, clock, 2));
  }

  lemma LastPoll(c: Config, line: string, clock: nat -> Time, p: Parsed)
    requires Injective(c.naming) && (forall s :: c.naming.digest(s) != "") && Says(c, line, p, clock(1)) && p.at <= clock(3)
    ensures var es := Run(c, TwiceRun(line, clock, 4)).entries;
            && es != [] && es[..|es| - 1] == Run(c, TwiceRun(line, clock, 2)).entries
            && var b := Begin(Position("f", 0, "", 1, false), Grows(line), 1);
               es[|es| - 1] == Entry(b, Swept(c, b, TwiceLook(line, clock, 3)), clock(3))
  {
    var acts := TwiceRun(line, clock, 3);
    TwiceAppends(line, clock, 4);
    ThirdPoll(c, line, clock, p);
    TwoNeverLose(c, line, clock);
    TwiceNext(c, line, clock, 3);
    LostRereads(c, "f", acts, TwiceLook(line, clock, 3));
  }

  /** A file that is only appended to, one failing read, and a line that is committed twice:
      the same bytes are read under two generations, so under two identifiers. */
  lemma FailedReadCommitsTwice(c: Config, line: string, clock: nat -> Time, p: Parsed)
    requires Injective(c.naming) && (forall s :: c.naming.digest(s) != "") && Says(c, line, p, clock(1)) && p.at <= clock(3)
    ensures AppendOnly("f", TwiceRun(line, clock, 4))
    ensures var es := Run(c, TwiceRun(line, clock, 4)).entries;
            && |es| == 3 && From(es[1]) == From(es[2]) == 0 && |line| == Until(es[1]) <= Until(es[2])
            && |es[1].scanned.pass.events| > 0 && |es[2].scanned.pass.events| > 0
            && var x, y := es[1].scanned.pass.events[0], es[2].scanned.pass.events[0];
               x.(id := "") == y.(id := "") == Event("", p.at, p.dims, 1) && x.id != y.id
  {
    TwiceAppends(line, clock, 4);
    TwoPolls(c, line, clock, p);
    LastPoll(c, line, clock, p);
    var es := Run(c, TwiceRun(line, clock, 4)).entries;
    ReadsFirst(c, es[2].begin, line, TwiceLook(line, clock, 3), p);
    RunIsGenuine(c, TwiceRun(line, clock, 4));
    RunAdvances(c, TwiceRun(line, clock, 4));
    assert Precedes(es[1], es[2]);
    OrderedDiffer(c, es[1], es[2], es[1].scanned.pass.events[0], es[2].scanned.pass.events[0]);
  }
}
