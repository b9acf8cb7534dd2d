/** What a counter tracker measures over whole runs of polls. */
module CounterRuns {
  import opened Clock
  import opened Ledger
  import opened SourceId
  import opened Counters

  /** One turn of the collector: counters read, then committed or rolled back, or not read. */
  datatype Round = Read(poll: Poll, committed: bool) | Unread

  function Advance(t: Tracked, r: Round): Tracked {
    match r
    case Read(p, committed) => if committed then Tracked(p.now, p.values) else FORGOTTEN
    case Unread => FORGOTTEN
  }

  /** The bytes a round measures for one key. */
  function Measured(n: Naming, t: Tracked, r: Round, key: string, w: Way): int {
    match r
    case Unread => 0
    case Read(p, _) =>
      if key !in p.values then 0
      else
        var o := OutcomeOf(n, t, p, key);
        if o.Grew? then Bytes(o.delta, w) else 0
  }

  predicate Present(r: Round, key: string) { r.Read? && key in r.poll.values }

  predicate Follows(t: Tracked, r: Round) { r.Read? && Continuous(t, r.poll) }

  // ---------- counters that grow and restart ----------

  /** What happens to the real counter behind a key: traffic passes, or it starts over. */
  datatype Activity = Flow(up: nat, down: nat) | Restart

  function Amount(a: Activity, w: Way): nat {
    match a
    case Flow(up, down) => if w.Upload? then up else down
    case Restart => 0
  }

  function After(v: nat, steps: seq<Activity>, w: Way): nat
    decreases |steps|
  {
    if steps == [] then v
    else After(if steps[0].Restart? then 0 else v + Amount(steps[0], w), steps[1..], w)
  }

  /** The bytes that truly passed. */
  function Passed(steps: seq<Activity>, w: Way): nat {
    if steps == [] then 0 else Amount(steps[0], w) + Passed(steps[1..], w)
  }

  lemma {:induction false} CounterBounds(v: nat, steps: seq<Activity>, w: Way)
    ensures After(v, steps, w) <= v + Passed(steps, w)
    ensures Restart in steps ==> After(v, steps, w) <= Passed(steps, w)
    ensures Restart !in steps ==> After(v, steps, w) == v + Passed(steps, w)
    decreases |steps|
  {
    if steps != [] {
      CounterBounds(if steps[0].Restart? then 0 else v + Amount(steps[0], w), steps[1..], w);
    }
  }

  /** What passed since the last round, and the round. */
  datatype Stretch = Stretch(steps: seq<Activity>, round: Round)

  function StateAfter(ss: seq<Stretch>): Tracked {
    if ss == [] then FORGOTTEN else Advance(StateAfter(ss[..|ss| - 1]), ss[|ss| - 1].round)
  }

  /** The true value of the counter at the end. */
  function Truth(ss: seq<Stretch>, w: Way): nat {
    if ss == [] then 0 else After(Truth(ss[..|ss| - 1], w), ss[|ss| - 1].steps, w)
  }

  function MeasuredIn(n: Naming, ss: seq<Stretch>, key: string, w: Way): int {
    if ss == [] then 0
    else
      var before := ss[..|ss| - 1];
      MeasuredIn(n, before, key, w) + Measured(n, StateAfter(before), ss[|ss| - 1].round, key, w)
  }

  /** What passed in the intervals between polls that follow one another. */
  function PassedCovered(ss: seq<Stretch>, w: Way): nat {
    if ss == [] then 0
    else
      var before := ss[..|ss| - 1];
      PassedCovered(before, w) + if Follows(StateAfter(before), ss[|ss| - 1].round) then Passed(ss[|ss| - 1].steps, w) else 0
  }

  /** Polls read the real counter, and a connection that began since the last poll began at zero. */
  predicate Honest(ss: seq<Stretch>, key: string) {
    ss == [] ||
    (var before := ss[..|ss| - 1];
     var r := ss[|ss| - 1].round;
     Honest(before, key) &&
     (Present(r, key) ==>
        var cur := r.poll.values[key];
        && cur.up == Truth(ss, Upload) && cur.down == Truth(ss, Download)
        && (!Known(StateAfter(before), key, cur) && BaselineOf(StateAfter(before), r.poll, key, cur).Some? ==>
              Restart in ss[|ss| - 1].steps)))
  }

  lemma {:induction false} RemembersTruth(ss: seq<Stretch>, key: string, w: Way)
    requires Honest(ss, key) && key in StateAfter(ss).previous
    ensures Value(StateAfter(ss).previous[key], w) == Truth(ss, w)
  {
    assert ss != [];
  }

  lemma RoundWithinPassed(n: Naming, ss: seq<Stretch>, key: string, w: Way)
    requires ss != [] && Honest(ss, key)
    ensures var t := StateAfter(ss[..|ss| - 1]);
            var s := ss[|ss| - 1];
            0 <= Measured(n, t, s.round, key, w) <= if Follows(t, s.round) then Passed(s.steps, w) else 0
  {
    var before := ss[..|ss| - 1];
    var s := ss[|ss| - 1];
    CounterBounds(Truth(before, w), s.steps, w);
    if Present(s.round, key) && Known(StateAfter(before), key, s.round.poll.values[key]) {
      RemembersTruth(before, key, w);
    }
  }

  /** Over every run of polls, failures and rollbacks, against a counter that may restart
      at any time, a key is never charged more than truly passed in the covered intervals. */
  lemma {:induction false} MeasuredWithinPassed(n: Naming, ss: seq<Stretch>, key: string, w: Way)
    requires Honest(ss, key)
    ensures 0 <= MeasuredIn(n, ss, key, w) <= PassedCovered(ss, w)
  {
    if ss != [] {
      MeasuredWithinPassed(n, ss[..|ss| - 1], key, w);
      RoundWithinPassed(n, ss, key, w);
    }
  }

  /** No failure, gap, absence, change of identity or restart after the first round. */
  predicate Steady(ss: seq<Stretch>, key: string) {
    ss == [] ||
    (var before := ss[..|ss| - 1];
     var s := ss[|ss| - 1];
     && Steady(before, key) && Present(s.round, key) && s.round.committed
     && (before == [] ||
         (Follows(StateAfter(before), s.round) && Known(StateAfter(before), key, s.round.poll.values[key]) && Restart !in s.steps)))
  }

  /** In a steady run what is measured is exactly the last reading minus the first. */
  lemma {:induction false} SteadyMeasuresAll(n: Naming, ss: seq<Stretch>, key: string, w: Way)
    requires ss != [] && Honest(ss, key) && Steady(ss, key)
    ensures MeasuredIn(n, ss, key, w) == Truth(ss, w) - Truth(ss[..1], w)
  {
    var before := ss[..|ss| - 1];
    if before == [] {
      assert ss[..1] == ss;
    } else {
      SteadyMeasuresAll(n, before, key, w);
      assert before[..1] == ss[..1];
      RemembersTruth(before, key, Upload);
      RemembersTruth(before, key, Download);
      CounterBounds(Truth(before, Upload), ss[|ss| - 1].steps, Upload);
      CounterBounds(Truth(before, Download), ss[|ss| - 1].steps, Download);
    }
  }

  // ---------- connections measured from zero ----------

  /** A connection: the key it is listed under, its identity, and the start that names. */
  datatype Connection = Connection(key: string, identity: string, start: Time)

  predicate Sighted(r: Round, c: Connection) { Present(r, c.key) && r.poll.values[c.key].identity == c.identity }

  predicate Tracks(t: Tracked, c: Connection) { c.key in t.previous && t.previous[c.key].identity == c.identity }

  predicate FromZero(t: Tracked, r: Round, c: Connection) {
    && Sighted(r, c) && Follows(t, r) && !Tracks(t, c)
    && BaselineOf(t, r.poll, c.key, r.poll.values[c.key]).Some?
  }

  function FromZeroCount(t: Tracked, rs: seq<Round>, c: Connection): nat
    decreases |rs|
  {
    if rs == [] then 0 else (if FromZero(t, rs[0], c) then 1 else 0) + FromZeroCount(Advance(t, rs[0]), rs[1..], c)
  }

  /** The bytes attributed to the connection itself, not to another under the same key. */
  function Attributed(n: Naming, t: Tracked, rs: seq<Round>, c: Connection, w: Way): int
    decreases |rs|
  {
    if rs == [] then 0
    else
      (if Sighted(rs[0], c) then Measured(n, t, rs[0], c.key, w) else 0) + Attributed(n, Advance(t, rs[0]), rs[1..], c, w)
  }

  /** The last reading of the connection's counter, v if it is not sighted. */
  function Latest(rs: seq<Round>, c: Connection, v: int, w: Way): int {
    if rs == [] then v
    else Latest(rs[1..], c, if Sighted(rs[0], c) then Value(rs[0].poll.values[c.key], w) else v, w)
  }

  /** The polls' clock does not step back, and the identity fixes the start. */
  predicate Orderly(clock: Time, rs: seq<Round>, c: Connection)
    decreases |rs|
  {
    rs == [] ||
    match rs[0]
    case Unread => Orderly(clock, rs[1..], c)
    case Read(p, _) =>
      && clock <= p.now && p.now != ZERO_TIME && (Sighted(rs[0], c) ==> p.values[c.key].start == c.start)
      && Orderly(p.now, rs[1..], c)
  }

  /** The tracker's last poll was at the clock, or is forgotten. */
  predicate OnClock(t: Tracked, clock: Time) { t.last == ZERO_TIME || t.last == clock }

  /** A connection is measured from zero at most once in any run, even if it vanishes and
      comes back, and never once the clock has passed its start. */
  lemma {:induction false} FromZeroOnce(t: Tracked, clock: Time, rs: seq<Round>, c: Connection)
    requires Orderly(clock, rs, c) && OnClock(t, clock)
    ensures FromZeroCount(t, rs, c) <= 1
    ensures c.start < clock ==> FromZeroCount(t, rs, c) == 0
    decreases |rs|
  {
    if rs != [] {
      FromZeroOnce(Advance(t, rs[0]), if rs[0].Read? then rs[0].poll.now else clock, rs[1..], c);
    }
  }

  // ---------- exactly how often ----------

  /** The instants at which the counters were read. */
  function Clocks(rs: seq<Round>): seq<Time> {
    if rs == [] then [] else (if rs[0].Read? then [rs[0].poll.now] else []) + Clocks(rs[1..])
  }

  /** Two instants close enough to follow one another, the first not behind the start, the other behind it. */
  predicate Crosses(a: Time, b: Time, start: Time, gap: int) {
    a != ZERO_TIME && start != ZERO_TIME && a <= start < b && b - a <= gap
  }

  /** How often the clock crosses the start upward. */
  function Crossings(last: Time, clocks: seq<Time>, start: Time, gap: int): nat
    decreases |clocks|
  {
    if clocks == [] then 0
    else (if Crosses(last, clocks[0], start, gap) then 1 else 0) + Crossings(clocks[0], clocks[1..], start, gap)
  }

  /** The polls have one gap, and the identity fixes the start. */
  predicate OnSchedule(rs: seq<Round>, c: Connection, gap: int) {
    forall i :: 0 <= i < |rs| && rs[i].Read? ==>
      rs[i].poll.maxGap == gap && (Sighted(rs[i], c) ==> rs[i].poll.values[c.key].start == c.start)
  }

  lemma {:induction false} FromZeroWithinCrossings(t: Tracked, last: Time, rs: seq<Round>, c: Connection, gap: int)
    requires OnSchedule(rs, c, gap) && OnClock(t, last)
    ensures FromZeroCount(t, rs, c) <= Crossings(last, Clocks(rs), c.start, gap)
    decreases |rs|
  {
    if rs != [] {
      var r := rs[0];
      assert r == rs[0] && OnSchedule(rs[1..], c, gap);
      FromZeroWithinCrossings(Advance(t, r), if r.Read? then r.poll.now else last, rs[1..], c, gap);
      if r.Read? {
        assert Clocks(rs)[0] == r.poll.now && Clocks(rs)[1..] == Clocks(rs[1..]);
        assert FromZero(t, r, c) ==> Crosses(last, r.poll.now, c.start, gap);
      } else {
        assert Clocks(rs) == Clocks(rs[1..]);
      }
    }
  }

  /** Present behind its start, absent before. */
  function Visit(c: Connection, now: Time, gap: int): Round {
    Read(Poll("", now, if now > c.start then map[c.key := Counter(1, 1, NO_ATTRIBUTION, c.identity, c.start)] else map[], gap, true), true)
  }

  function Visits(c: Connection, clocks: seq<Time>, gap: int): seq<Round> {
    if clocks == [] then [] else [Visit(c, clocks[0], gap)] + Visits(c, clocks[1..], gap)
  }

  lemma {:induction false} VisitsOnSchedule(c: Connection, clocks: seq<Time>, gap: int)
    ensures OnSchedule(Visits(c, clocks, gap), c, gap) && Clocks(Visits(c, clocks, gap)) == clocks
  {
    if clocks != [] {
      VisitsOnSchedule(c, clocks[1..], gap);
      assert Visits(c, clocks, gap)[1..] == Visits(c, clocks[1..], gap);
    }
  }

  lemma {:induction false} VisitsReachCrossings(t: Tracked, c: Connection, clocks: seq<Time>, gap: int)
    requires t.last <= c.start ==> c.key !in t.previous
    ensures FromZeroCount(t, Visits(c, clocks, gap), c) == Crossings(t.last, clocks, c.start, gap)
    decreases |clocks|
  {
    if clocks != [] {
      var r := Visit(c, clocks[0], gap);
      assert Visits(c, clocks, gap)[1..] == Visits(c, clocks[1..], gap);
      assert FromZero(t, r, c) <==> Crosses(t.last, clocks[0], c.start, gap);
      VisitsReachCrossings(Advance(t, r), c, clocks[1..], gap);
    }
  }

  /** On a given schedule of polls a connection is measured from zero as often as the clock
      crosses its start upward, and no oftener: the bound holds of every run exactly when it
      holds of the crossings. */
  lemma FromZeroIff(clocks: seq<Time>, c: Connection, gap: int, k: nat)
    ensures (forall rs :: OnSchedule(rs, c, gap) && Clocks(rs) == clocks ==> FromZeroCount(FORGOTTEN, rs, c) <= k) <==>
            Crossings(ZERO_TIME, clocks, c.start, gap) <= k
  {
    forall rs | OnSchedule(rs, c, gap) && Clocks(rs) == clocks
      ensures FromZeroCount(FORGOTTEN, rs, c) <= Crossings(ZERO_TIME, clocks, c.start, gap)
    {
      FromZeroWithinCrossings(FORGOTTEN, ZERO_TIME, rs, c, gap);
    }
    VisitsOnSchedule(c, clocks, gap);
    VisitsReachCrossings(FORGOTTEN, c, clocks, gap);
    assert FromZeroCount(FORGOTTEN, Visits(c, clocks, gap), c) == Crossings(ZERO_TIME, clocks, c.start, gap);
  }

  /** A second crossing takes a poll at or before the start after one behind it. */
  lemma {:induction false} NoReturnCrossesOnce(last: Time, clocks: seq<Time>, start: Time, gap: int)
    requires forall i, j :: 0 <= i < j < |clocks| && start < clocks[i] ==> start < clocks[j]
    requires start < last ==> forall i :: 0 <= i < |clocks| ==> start < clocks[i]
    ensures Crossings(last, clocks, start, gap) <= if start < last then 0 else 1
    decreases |clocks|
  {
    if clocks != [] {
      NoReturnCrossesOnce(clocks[0], clocks[1..], start, gap);
    }
  }

  /** The connection's counter never shows less than v, nor less than before. */
  predicate Monotone(rs: seq<Round>, c: Connection, up: int, down: int) {
    rs == [] ||
    if Sighted(rs[0], c) then
      var cur := rs[0].poll.values[c.key];
      up <= cur.up && down <= cur.down && Monotone(rs[1..], c, cur.up, cur.down)
    else Monotone(rs[1..], c, up, down)
  }

  /** No poll sights the connection before it started. */
  predicate NotEarly(rs: seq<Round>, c: Connection) {
    rs == [] || ((Sighted(rs[0], c) ==> c.start <= rs[0].poll.now) && NotEarly(rs[1..], c))
  }

  /** So far e bytes of v are attributed, and a second measurement from zero is ruled out. */
  predicate Safe(t: Tracked, clock: Time, c: Connection, up: int, down: int, e: int, w: Way) {
    && OnClock(t, clock) && 0 <= e <= (if w.Upload? then up else down)
    && (Tracks(t, c) ==> t.previous[c.key].up == up && t.previous[c.key].down == down && c.start <= t.last)
    && (c.start < clock || e == 0)
  }

  lemma SafeStep(n: Naming, t: Tracked, clock: Time, r: Round, c: Connection, up: int, down: int, e: int, w: Way)
    requires Orderly(clock, [r], c) && Monotone([r], c, up, down) && NotEarly([r], c) && Safe(t, clock, c, up, down, e, w)
    ensures var e' := e + if Sighted(r, c) then Measured(n, t, r, c.key, w) else 0;
            var clock' := if r.Read? then r.poll.now else clock;
            if Sighted(r, c) then Safe(Advance(t, r), clock', c, r.poll.values[c.key].up, r.poll.values[c.key].down, e', w)
            else Safe(Advance(t, r), clock', c, up, down, e', w)
  {}

  lemma {:induction false} SafeRuns(n: Naming, t: Tracked, clock: Time, rs: seq<Round>, c: Connection, up: int, down: int, e: int, w: Way)
    requires Orderly(clock, rs, c) && Monotone(rs, c, up, down) && NotEarly(rs, c) && Safe(t, clock, c, up, down, e, w)
    ensures e + Attributed(n, t, rs, c, w) <= Latest(rs, c, if w.Upload? then up else down, w)
    decreases |rs|
  {
    if rs != [] {
      var r := rs[0];
      assert [r][1..] == [];
      SafeStep(n, t, clock, r, c, up, down, e, w);
      var e' := e + if Sighted(r, c) then Measured(n, t, r, c.key, w) else 0;
      var clock' := if r.Read? then r.poll.now else clock;
      if Sighted(r, c) {
        SafeRuns(n, Advance(t, r), clock', rs[1..], c, r.poll.values[c.key].up, r.poll.values[c.key].down, e', w);
      } else {
        SafeRuns(n, Advance(t, r), clock', rs[1..], c, up, down, e', w);
      }
    }
  }

  /** From a fresh tracker: a connection never sighted before its start is attributed no
      more than its own latest counter value, however often it vanishes and comes back. */
  lemma AttributedWithinCounter(n: Naming, clock: Time, rs: seq<Round>, c: Connection, w: Way)
    requires Orderly(clock, rs, c) && Monotone(rs, c, 0, 0) && NotEarly(rs, c)
    ensures Attributed(n, FORGOTTEN, rs, c, w) <= Latest(rs, c, 0, w)
  {
    SafeRuns(n, FORGOTTEN, clock, rs, c, 0, 0, 0, w);
  }

  // ---------- exactly when attribution stays within the counter ----------

  /** Whatever polls follow, the connection is never attributed more than its counter shows. */
  ghost predicate StaysWithin(n: Naming, t: Tracked, clock: Time, c: Connection, up: Count, down: Count, e: int, w: Way) {
    forall rs: seq<Round> {:trigger Attributed(n, t, rs, c, w)} :: Orderly(clock, rs, c) && Monotone(rs, c, up, down) ==>
      e + Attributed(n, t, rs, c, w) <= Latest(rs, c, if w.Upload? then up else down, w)
  }

  lemma {:induction false} StartedIsNotEarly(clock: Time, rs: seq<Round>, c: Connection)
    requires Orderly(clock, rs, c) && c.start <= clock
    ensures NotEarly(rs, c)
    decreases |rs|
  {
    if rs != [] {
      StartedIsNotEarly(if rs[0].Read? then rs[0].poll.now else clock, rs[1..], c);
    }
  }

  function Sighting(c: Connection, now: Time, up: Count, down: Count): Round {
    Read(Poll("", now, map[c.key := Counter(up, down, NO_ATTRIBUTION, c.identity, c.start)], 1, true), true)
  }

  function Absence(now: Time): Round { Read(Poll("", now, map[], 1, true), true) }

  /** Absent at its start and back right after it, the connection is measured from zero. */
  lemma BackFromZero(n: Naming, t: Tracked, clock: Time, c: Connection, up: Count, down: Count, w: Way)
    requires clock <= c.start && ZERO_TIME < c.start && 0 < up + down
    ensures var rs := [Absence(c.start), Sighting(c, c.start + 1, up, down)];
            var v := if w.Upload? then up else down;
            && Orderly(clock, rs, c) && Monotone(rs, c, up, down)
            && Attributed(n, t, rs, c, w) == v && Latest(rs, c, v, w) == v
  {
    var a, b := Absence(c.start), Sighting(c, c.start + 1, up, down);
    assert [a, b][1..] == [b] && [b][1..] == [];
    assert Advance(t, a) == Tracked(c.start, map[]);
    assert Attributed(n, Advance(t, a), [b], c, w) == Measured(n, Advance(t, a), b, c.key, w);
    assert Latest([b], c, if w.Upload? then up else down, w) == Value(b.poll.values[c.key], w);
  }

  /** Seen once more before its start, then absent, then back: both measurements count. */
  lemma GrowsThenBack(n: Naming, t: Tracked, c: Connection, up: Count, down: Count, w: Way)
    requires Tracks(t, c) && t.previous[c.key].up == up && t.previous[c.key].down == down
    requires ZERO_TIME < t.last < c.start && up < MAX_INT64 && down < MAX_INT64
    ensures var rs := [Sighting(c, t.last + 1, up + 1, down + 1), Absence(c.start), Sighting(c, c.start + 1, up + 1, down + 1)];
            var v := if w.Upload? then up else down;
            && Orderly(t.last, rs, c) && Monotone(rs, c, up, down)
            && Attributed(n, t, rs, c, w) == 1 + (v + 1) && Latest(rs, c, v, w) == v + 1
  {
    var s := Sighting(c, t.last + 1, up + 1, down + 1);
    var rest := [Absence(c.start), Sighting(c, c.start + 1, up + 1, down + 1)];
    assert [s, rest[0], rest[1]][1..] == rest;
    BackFromZero(n, Advance(t, s), t.last + 1, c, up + 1, down + 1, w);
    assert Measured(n, t, s, c.key, w) == 1;
  }

  /** After a poll that sighted a connection with e bytes attributed so far: attribution
      stays within its counter for good exactly when the clock is past the connection's
      start, or stands at it with nothing attributed yet. */
  lemma StaysWithinIff(n: Naming, t: Tracked, c: Connection, up: Count, down: Count, e: int, w: Way)
    requires Tracks(t, c) && t.previous[c.key].up == up && t.previous[c.key].down == down && ZERO_TIME < t.last
    requires 0 <= e <= (if w.Upload? then up else down) && up < MAX_INT64 && down < MAX_INT64
    ensures StaysWithin(n, t, t.last, c, up, down, e, w) <==> c.start < t.last || (c.start == t.last && e == 0)
  {
    var v := if w.Upload? then up else down;
    if c.start < t.last || (c.start == t.last && e == 0) {
      forall rs: seq<Round> {:trigger Attributed(n, t, rs, c, w)} | Orderly(t.last, rs, c) && Monotone(rs, c, up, down)
        ensures e + Attributed(n, t, rs, c, w) <= Latest(rs, c, v, w)
      {
        StartedIsNotEarly(t.last, rs, c);
        SafeRuns(n, t, t.last, rs, c, up, down, e, w);
      }
    } else if e > 0 {
      BackFromZero(n, t, t.last, c, up, down, w);
      var rs := [Absence(c.start), Sighting(c, c.start + 1, up, down)];
      assert e + Attributed(n, t, rs, c, w) > Latest(rs, c, v, w);
    } else {
      GrowsThenBack(n, t, c, up, down, w);
      var rs := [Sighting(c, t.last + 1, up + 1, down + 1), Absence(c.start), Sighting(c, c.start + 1, up + 1, down + 1)];
      assert e + Attributed(n, t, rs, c, w) > Latest(rs, c, v, w);
    }
  }

  /** A clock that steps back measures a connection from zero a second time. */
  lemma ClockBackCountsTwice()
    ensures var c := Connection("k", "i", 15);
            var rs := [Absence(15), Sighting(c, 16, 7, 7), Absence(15), Sighting(c, 16, 7, 7)];
            FromZeroCount(FORGOTTEN, rs, c) == 2
  {
    var c := Connection("k", "i", 15);
    var a, b := Absence(15), Sighting(c, 16, 7, 7);
    assert [a, b, a, b][1..] == [b, a, b] && [b, a, b][1..] == [a, b] && [a, b][1..] == [b] && [b][1..] == [];
    var t := Advance(FORGOTTEN, a);
    assert t == Tracked(15, map[]) && Advance(Advance(t, b), a) == t;
    assert FromZero(t, b, c);
    assert FromZeroCount(t, [b], c) == 1;
    assert FromZeroCount(Advance(t, b), [a, b], c) == 1;
    assert FromZeroCount(t, [b, a, b], c) == 2;
  }
}
