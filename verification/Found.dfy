/** Which lines a pass over a log finds. */
module Found {
  import opened Clock
  import opened Ledger
  import opened SourceId
  import opened Lines

  datatype Stretch = Stretch(start: nat, end: nat)

  /** A line of the text, newline included, that begins in the stretch or where it begins. */
  predicate Complete(text: string, from: nat, until: nat, l: Stretch) {
    && from <= l.start < l.end <= until <= |text| && text[l.end - 1] == '\n'
    && (forall i :: l.start <= i < l.end - 1 ==> text[i] != '\n') && (l.start == from || text[l.start - 1] == '\n')
  }

  /** It fits the buffer, says something, and not of the future by more than a minute. */
  predicate Says(log: Log, text: string, l: Stretch, now: Time)
    requires l.start <= l.end <= |text|
  {
    && l.end - l.start <= log.buffer && log.parse(text[l.start..l.end]).Some?
    && log.parse(text[l.start..l.end]).value.at <= now + 60 * 1_000_000_000
  }

  /** The event of such a line, named by the file, its generation, the line's place and the instant. */
  predicate EventOf(log: Log, text: string, l: Stretch, e: Event)
    requires l.start <= l.end <= |text|
  {
    log.parse(text[l.start..l.end]).Some? &&
    var p := log.parse(text[l.start..l.end]).value;
    && e.at == p.at && e.dims == p.dims && e.count == 1
    && e.id == log.naming.digest(Encode([log.source, log.identity, Decimal(log.generation), Decimal(l.start), log.naming.stamp(p.at)]))
  }

  predicate InOrder(ls: seq<Stretch>) { forall i, j :: 0 <= i < j < |ls| ==> ls[i].end <= ls[j].start }

  /** These are the complete lines of the stretch that say something, and the events they give. */
  ghost predicate Finds(log: Log, text: string, from: nat, until: nat, clock: nat -> Time, ls: seq<Stretch>, es: seq<Event>) {
    && InOrder(ls) && |ls| == |es|
    && (forall i :: 0 <= i < |ls| ==> Complete(text, from, until, ls[i]) && Says(log, text, ls[i], clock(ls[i].start)) && EventOf(log, text, ls[i], es[i]))
    && forall l :: Complete(text, from, until, l) && Says(log, text, l, clock(l.start)) ==> l in ls
  }

  /** These are the complete lines of the stretch that do not. */
  ghost predicate Misses(log: Log, text: string, from: nat, until: nat, clock: nat -> Time, ls: seq<Stretch>) {
    && InOrder(ls)
    && (forall i :: 0 <= i < |ls| ==> Complete(text, from, until, ls[i]) && !Says(log, text, ls[i], clock(ls[i].start)))
    && forall l :: Complete(text, from, until, l) && !Says(log, text, l, clock(l.start)) ==> l in ls
  }

  lemma FirstIsOnly(text: string, from: nat, until: nat, l: Stretch)
    requires from <= until <= |text| && Newline(text, from, until) < until
    ensures var first := Stretch(from, Newline(text, from, until) + 1);
            && Complete(text, from, until, first)
            && (Complete(text, from, until, l) <==> l == first || Complete(text, first.end, until, l))
  {
    NewlineFirst(text, from, until);
  }

  /** It is the first complete line; all others lie behind it. */
  ghost predicate FirstOf(text: string, from: nat, until: nat, first: Stretch) {
    && first.start == from && Complete(text, from, until, first)
    && forall l {:trigger Complete(text, from, until, l)} :: Complete(text, from, until, l) <==> l == first || Complete(text, first.end, until, l)
  }

  lemma FirstIsFirst(text: string, from: nat, until: nat)
    requires from <= until <= |text| && Newline(text, from, until) < until
    ensures FirstOf(text, from, until, Stretch(from, Newline(text, from, until) + 1))
  {
    var first := Stretch(from, Newline(text, from, until) + 1);
    forall l ensures Complete(text, from, until, l) <==> l == first || Complete(text, first.end, until, l) {
      FirstIsOnly(text, from, until, l);
    }
    FirstIsOnly(text, from, until, first);
  }

  lemma {:induction false} NewlineFirst(text: string, from: nat, until: nat)
    requires from <= until <= |text|
    ensures forall i :: from <= i < Newline(text, from, until) ==> text[i] != '\n'
    decreases until - from
  {
    if from < until && text[from] != '\n' {
      NewlineFirst(text, from + 1, until);
    }
  }

  /** What the first line yields: its event if it says something, a drop otherwise. */
  predicate Yields(log: Log, text: string, l: Stretch, now: Time, line: Pass)
    requires l.start <= l.end <= |text|
  {
    if Says(log, text, l, now) then |line.events| == 1 && EventOf(log, text, l, line.events[0]) && line.dropped == 0 else line == Pass([], 1)
  }

  lemma OrderMore(text: string, first: Stretch, until: nat, ls: seq<Stretch>)
    requires InOrder(ls) && forall i :: 0 <= i < |ls| ==> Complete(text, first.end, until, ls[i])
    ensures InOrder([first] + ls)
  {}

  /** The lines behind the first one, and the first one if it says something. */
  lemma FindsMore(log: Log, text: string, from: nat, until: nat, clock: nat -> Time, first: Stretch, line: Pass, ls: seq<Stretch>, es: seq<Event>) returns (all: seq<Stretch>)
    requires FirstOf(text, from, until, first) && Yields(log, text, first, clock(from), line) && Finds(log, text, first.end, until, clock, ls, es)
    ensures Finds(log, text, from, until, clock, all, line.events + es)
  {
    all := ls;
    if Says(log, text, first, clock(from)) {
      all := [first] + ls;
      var events := line.events + es;
      forall i | 0 <= i < |all|
        ensures Complete(text, from, until, all[i]) && Says(log, text, all[i], clock(all[i].start)) && EventOf(log, text, all[i], events[i])
      {
        if i > 0 { assert all[i] == ls[i - 1] && events[i] == es[i - 1] && Complete(text, first.end, until, ls[i - 1]); }
      }
      OrderMore(text, first, until, ls);
    } else {
      assert line.events + es == es;
    }
  }

  lemma MissesMore(log: Log, text: string, from: nat, until: nat, clock: nat -> Time, first: Stretch, line: Pass, ls: seq<Stretch>) returns (all: seq<Stretch>)
    requires FirstOf(text, from, until, first) && Yields(log, text, first, clock(from), line) && Misses(log, text, first.end, until, clock, ls)
    ensures Misses(log, text, from, until, clock, all) && |all| == |ls| + line.dropped
  {
    all := ls;
    if !Says(log, text, first, clock(from)) {
      all := [first] + ls;
      forall i | 0 <= i < |all| ensures Complete(text, from, until, all[i]) && !Says(log, text, all[i], clock(all[i].start)) {
        if i > 0 { assert all[i] == ls[i - 1] && Complete(text, first.end, until, ls[i - 1]); }
      }
      OrderMore(text, first, until, ls);
    }
  }

  lemma FirstLineIs(log: Log, text: string, from: nat, until: nat, clock: nat -> Time)
    requires from <= until <= |text| && Newline(text, from, until) < until
    ensures Yields(log, text, Stretch(from, Newline(text, from, until) + 1), clock(from), FirstLine(log, text, from, until, false, clock))
  {}

  ghost predicate Tells(log: Log, text: string, from: nat, until: nat, clock: nat -> Time, pass: Pass, ls: seq<Stretch>, lost: seq<Stretch>) {
    && from <= until <= |text| && Finds(log, text, from, until, clock, ls, pass.events) && Misses(log, text, from, until, clock, lost)
    && pass.dropped == |lost| + if from < until && text[until - 1] != '\n' then 1 else 0
  }

  lemma LineMore(log: Log, text: string, from: nat, until: nat, clock: nat -> Time, rest: Pass, more: seq<Stretch>, others: seq<Stretch>)
      returns (ls: seq<Stretch>, lost: seq<Stretch>)
    requires from <= until <= |text| && Newline(text, from, until) < until && Tells(log, text, Newline(text, from, until) + 1, until, clock, rest, more, others)
    ensures var line := FirstLine(log, text, from, until, false, clock);
            Tells(log, text, from, until, clock, Pass(line.events + rest.events, line.dropped + rest.dropped), ls, lost)
  {
    var first, line := Stretch(from, Newline(text, from, until) + 1), FirstLine(log, text, from, until, false, clock);
    FirstIsFirst(text, from, until);
    FirstLineIs(log, text, from, until, clock);
    ls, lost := AllMore(log, text, from, until, clock, first, line, rest, more, others);
  }

  lemma AllMore(log: Log, text: string, from: nat, until: nat, clock: nat -> Time, first: Stretch, line: Pass, rest: Pass, more: seq<Stretch>, others: seq<Stretch>)
      returns (ls: seq<Stretch>, lost: seq<Stretch>)
    requires from <= until <= |text| && FirstOf(text, from, until, first) && Yields(log, text, first, clock(from), line)
    requires Tells(log, text, first.end, until, clock, rest, more, others)
    ensures Tells(log, text, from, until, clock, Pass(line.events + rest.events, line.dropped + rest.dropped), ls, lost)
  {
    ls := FindsMore(log, text, from, until, clock, first, line, more, rest.events);
    lost := MissesMore(log, text, from, until, clock, first, line, others);
  }

  lemma NoLineLeft(log: Log, text: string, from: nat, until: nat, clock: nat -> Time)
    requires from <= until <= |text| && Newline(text, from, until) == until
    ensures Tells(log, text, from, until, clock, Pass([], if from < until then 1 else 0), [], [])
  {
    NewlineFirst(text, from, until);
  }

  /** A pass that begins at a line finds exactly the complete lines that say something, and drops
      exactly the others, and the incomplete one it may end with. */
  lemma {:induction false} PassFinds(log: Log, text: string, from: nat, until: nat, clock: nat -> Time) returns (ls: seq<Stretch>, lost: seq<Stretch>)
    requires from <= until <= |text|
    ensures Tells(log, text, from, until, clock, OnePass(log, text, from, until, false, clock), ls, lost)
    decreases until - from
  {
    var i := Newline(text, from, until);
    if i < until {
      PassLine(log, text, from, until, false, clock);
      ls, lost := PassFinds(log, text, i + 1, until, clock);
      ls, lost := LineMore(log, text, from, until, clock, OnePass(log, text, i + 1, until, false, clock), ls, lost);
    } else {
      PassEnds(log, text, from, until, false, clock);
      NoLineLeft(log, text, from, until, clock);
      ls, lost := [], [];
    }
  }

  /** A pass that begins inside a dropped line finds what one behind that line finds. */
  lemma PassSkips(log: Log, text: string, from: nat, until: nat, clock: nat -> Time)
    requires from <= until <= |text|
    ensures var n := Newline(text, from, until);
            OnePass(log, text, from, until, true, clock) == if n < until then OnePass(log, text, n + 1, until, false, clock) else Pass([], 0)
  {
    var n := Newline(text, from, until);
    if n < until {
      PassLine(log, text, from, until, true, clock);
    } else {
      PassEnds(log, text, from, until, true, clock);
    }
  }
}
