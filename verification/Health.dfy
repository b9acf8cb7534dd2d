/** What a source's status tells of its last turn. */
module Health {
  import opened Wrappers
  import opened Clock
  import opened Ledger
  import opened SourceId
  import opened Counters
  import opened Compact
  import opened Collector
  import opened Attribution
  import opened Calendar
  import Drops
  import Tail
  import TailLedger

  // ---------- after a reading ----------

  /** Time passed that no poll covers: the clock did not move on, or too much of it passed. */
  predicate GapOpened(t: Tracked, p: Poll) { t.last != ZERO_TIME && !Follows(t, p) }

  /** The aggregate went back. */
  predicate AggregateBack(c: Config, desk: Desk, r: Reading)
    requires r.Counted?
  {
    && c.kind == "mihomo" && Follows(desk.tracked, PollOf(c, r))
    && desk.total.Some? && r.totals.Some? && !Grown(desk.total, r.totals)
  }

  /** The aggregate was not read, now or before, or the connections claim more than it grew. */
  predicate Mismatched(n: Naming, c: Config, desk: Desk, r: Reading)
    requires r.Counted? && forall k :: k in r.keys ==> k in r.values
  {
    var p := PollOf(c, r);
    && c.kind == "mihomo" && Follows(desk.tracked, p)
    && (desk.total.None? || r.totals.None? ||
        (Grown(desk.total, r.totals) && !Covered(DeltasOf(n, desk.tracked, p, r.keys), desk.total, r.totals)))
  }

  predicate SomeFellBack(t: Tracked, p: Poll, keys: seq<string>)
    requires forall k :: k in keys ==> k in p.values
  {
    exists k :: k in keys && FellBack(t, p, k)
  }

  /** Something is missing from what the reading shows. */
  predicate Lossy(n: Naming, c: Config, desk: Desk, r: Reading)
    requires r.Counted? && forall k :: k in r.keys ==> k in r.values
  {
    var p := PollOf(c, r);
    r.dropped > 0 || GapOpened(desk.tracked, p) || SomeFellBack(desk.tracked, p, r.keys) || AggregateBack(c, desk, r) || Mismatched(n, c, desk, r)
  }

  lemma YieldMeans(n: Naming, c: Config, desk: Desk, r: Reading) returns (back: seq<string>)
    requires r.Counted? && forall k :: k in r.keys ==> k in r.values
    ensures var y := Yield(n, c, desk, r);
            var p := PollOf(c, r);
            && (y.mismatch <==> Mismatched(n, c, desk, r))
            && y.resets == |back| + (if AggregateBack(c, desk, r) then 1 else 0)
            && (forall k :: k in back <==> k in r.keys && FellBack(desk.tracked, p, k))
            && (!Lossy(n, c, desk, r) ==> y.coverage == if Follows(desk.tracked, p) then desk.tracked.last else ZERO_TIME)
  {
    var p := PollOf(c, r);
    back := ResetsAre(n, desk.tracked, p, r.keys);
    if c.kind == "mihomo" { WatchedCases(n, desk.tracked, p, r.keys, desk.total, r.totals); }
  }

  /** A source is collecting exactly when nothing is missing and an earlier poll is continued,
      at its baseline when nothing is missing and none is, and incomplete otherwise; the
      counts gain what was missing. */
  lemma CountedState(n: Naming, c: Config, desk: Desk, r: Reading) returns (back: seq<string>)
    requires r.Counted? && forall k :: k in r.keys ==> k in r.values
    ensures var s := StatusAfterReading(n, c, desk, r);
            var p := PollOf(c, r);
            && s.state == (if Lossy(n, c, desk, r) then Incomplete else if desk.tracked.last == ZERO_TIME then AtBaseline else Collecting)
            && s.gapCount == desk.status.gapCount + (if GapOpened(desk.tracked, p) then 1 else 0) + (if Mismatched(n, c, desk, r) then 1 else 0)
            && s.droppedEvents == desk.status.droppedEvents + r.dropped
            && s.resetCount == desk.status.resetCount + |back| + (if AggregateBack(c, desk, r) then 1 else 0)
            && (forall k :: k in back <==> k in r.keys && FellBack(desk.tracked, p, k))
            && s.retentionDropped == desk.status.retentionDropped
            && s.message == (match s.state
                             case Incomplete => if Mismatched(n, c, desk, r) then AttributionLost else SomeLost
                             case AtBaseline => BaselineTaken
                             case _ => Cleared)
  {
    back := YieldMeans(n, c, desk, r);
    var t, p := desk.tracked, PollOf(c, r);
    assert Gap(c, t, r.now) == if GapOpened(t, p) then 1 else 0;
    assert SomeFellBack(t, p, r.keys) <==> |back| > 0 by {
      if |back| > 0 { assert back[0] in back; }
    }
  }

  /** A source that cannot be read is down, which counts as a gap once. */
  lemma UnavailableState(n: Naming, c: Config, desk: Desk, r: Reading)
    requires r.Unavailable?
    ensures var s := StatusAfterReading(n, c, desk, r);
            && s.state == SourceDown && s.message == Told(r.message)
            && s.gapCount == desk.status.gapCount + (if desk.status.state == SourceDown then 0 else 1)
            && s.droppedEvents == desk.status.droppedEvents && s.resetCount == desk.status.resetCount
  {}

  // ---------- after the commit ----------

  /** Only for want of space is the compact form offered. What the status says once the turn is
      over: as after the reading if the batch was taken; under pressure, with the detail counted
      as dropped, if only its compact form was; and with a gap and a forgotten baseline if
      neither was. */
  lemma TurnState(n: Naming, teller: Teller, desk: Desk, b: Batch, k: Book, first: Disk, second: Disk)
    ensures var turn := Committed(n, teller, desk, b, k, first, second);
            var taken := teller(k, b.(status := Some(desk.status)), first).1.None?;
            && (taken ==> turn.error.None? && turn.desk == desk)
            && (!taken && turn.error.None? ==>
                  && turn.desk.status.state == UnderPressure && turn.desk.status.gapCount == desk.status.gapCount
                  && turn.desk.status.droppedEvents == desk.status.droppedEvents + |b.events| + Attributed(b.deltas)
                  && turn.desk.tracked == desk.tracked && turn.desk.total == desk.total)
            && (!taken ==>
                  var (after, why) := teller(k, b.(status := Some(desk.status)), first);
                  if why == Some(StorageLimit) && Compacted(n, b).Some? then
                    var sent := Compacted(n, b).value.(status := Some(CompactStatus(desk.status, b)));
                    turn.book == teller(after, sent, second).0 && turn.error == teller(after, sent, second).1
                  else turn.book == after && turn.error == why)
            && (turn.error.Some? ==>
                  && turn.desk.tracked == FORGOTTEN && turn.desk.total.None? && turn.desk.status.gapCount == desk.status.gapCount + 1
                  && (turn.error == Some(StorageLimit) ==> turn.desk.status.state == UnderPressure))
  {}

  predicate Nameless(d: Delta) { d.dims == Dimensions("", "", "", "", "") }

  /** The detail a compact batch leaves out: one for each interval that names somebody. */
  lemma {:induction false} AttributedAre(ds: seq<Delta>) returns (of: seq<nat>)
    ensures |of| == Attributed(ds) && (forall i, j :: 0 <= i < j < |of| ==> of[i] < of[j])
    ensures forall i: nat :: i in of <==> i < |ds| && !Nameless(ds[i])
  {
    of := [];
    if ds != [] {
      var rest := AttributedAre(ds[1..]);
      var later := seq(|rest|, k requires 0 <= k < |rest| => rest[k] + 1);
      forall i: nat ensures i in later <==> 0 < i < |ds| && !Nameless(ds[i]) {
        if i > 0 {
          if i - 1 in rest { var k :| 0 <= k < |rest| && rest[k] == i - 1; assert later[k] == i; }
          if i in later { var k :| 0 <= k < |later| && later[k] == i; assert rest[k] == i - 1; }
        }
      }
      of := if Nameless(ds[0]) then later else [0] + later;
    }
  }

  // ---------- an access log ----------

  /** The same of a log: collecting when the poll went through, missed nothing and continues an
      earlier one, at its baseline when it continues none. */
  lemma TailState(s: Status, p: Tail.Polled)
    ensures var s' := TailLedger.StatusAfter(s, p);
            && s'.state == (if p.failed then SourceDown else if p.dropped > 0 || p.gaps > 0 then Incomplete
                            else if p.coverage == ZERO_TIME then AtBaseline else Collecting)
            && s'.gapCount == s.gapCount + p.gaps + (if p.failed && s.state != SourceDown then 1 else 0)
            && s'.droppedEvents == s.droppedEvents + p.dropped && s'.resetCount == s.resetCount && s'.retentionDropped == s.retentionDropped
  {}

  // ---------- where a poll of a log begins and ends ----------

  /** The digest of up to 64 bytes before the offset. */
  function AnchorAt(c: Tail.Config, text: string, offset: nat): string
    requires offset <= |text|
  {
    if offset == 0 then "" else c.naming.digest(Encode([if offset <= 64 then text[..offset] else text[offset - 64..offset]]))
  }

  /** The text can be the one the position was taken in. */
  predicate SameText(c: Tail.Config, p: Tail.Position, text: string) {
    p.offset <= |text| && (p.anchor == "" || p.anchor == AnchorAt(c, text, p.offset))
  }

  lemma AnchorIsAt(c: Tail.Config, text: string, offset: nat)
    requires offset <= |text|
    ensures Tail.Anchor(c, text, offset) == AnchorAt(c, text, offset)
  {}

  /** A new tail begins at the end of the file; an old one where it was, unless the file is
      another one or its text cannot be the same: then at the first byte, as a new generation
      and with a gap. */
  lemma PollBegins(c: Tail.Config, m: Tail.Memory, look: Tail.Look)
    ensures !m.open && look.path.None? <==> Tail.Begun(c, m, look).None?
    ensures !m.open && look.path.Some? && !m.restored ==>
              var v := look.path.value;
              Tail.Begun(c, m, look) == Some(Tail.Begin(Tail.Position(v.identity, |v.text|, AnchorAt(c, v.text, |v.text|), 0, false), v.text, 0))
    ensures !m.open && look.path.Some? && m.restored ==>
              var v := look.path.value;
              Tail.Begun(c, m, look) ==
                if m.position.identity == v.identity && SameText(c, m.position, v.text) then Some(Tail.Begin(m.position, v.text, 0))
                else Some(Tail.Begin(Tail.Position(v.identity, 0, "", m.position.generation + 1, false), v.text, 1))
    ensures m.open ==>
              Tail.Begun(c, m, look) ==
                if SameText(c, m.position, look.held) then Some(Tail.Begin(m.position, look.held, 0))
                else Some(Tail.Begin(Tail.Position(m.position.identity, 0, "", m.position.generation + 1, false), look.held, 1))
  {
    if m.open {
      if m.position.offset <= |look.held| { AnchorIsAt(c, look.held, m.position.offset); }
    } else if look.path.Some? {
      var v := look.path.value;
      AnchorIsAt(c, v.text, |v.text|);
      if m.position.offset <= |v.text| { AnchorIsAt(c, v.text, m.position.offset); }
    }
  }

  /** Only a poll without a gap that follows a successful one closely enough claims the time
      between them; a rename is followed once less than the window was read, and costs a drop
      if something unread is left behind. */
  lemma PollEnds(c: Tail.Config, m: Tail.Memory, look: Tail.Look)
    requires Tail.Begun(c, m, look).Some?
    ensures var b := Tail.Begun(c, m, look).value;
            var s := Tail.Swept(c, b, look);
            var p := Tail.PollTail(c, m, look);
            var renamed := look.after.Some? && look.after.value != b.position.identity && s.read < 1024 * 1024;
            && p.failed == s.failed && p.events == s.pass.events && p.gaps == b.gaps
            && p.dropped == s.pass.dropped + (if !s.failed && renamed && s.offset < |b.text| then 1 else 0)
            && p.coverage == (if !s.failed && b.gaps == 0 && m.last != ZERO_TIME && look.now <= m.last + c.maxGap then m.last else ZERO_TIME)
            && (s.failed ==> p.memory.last == m.last && p.memory.position == b.position.(offset := s.offset, skipping := s.skipping))
            && (!s.failed ==> p.memory.last == look.now && p.memory.restored == (renamed || !m.open || m.restored) && p.memory.open == !renamed)
            && (!s.failed ==>
                  p.memory.position == if renamed then Tail.Position(look.after.value, 0, "", b.position.generation + 1, false)
                                       else b.position.(offset := s.offset, skipping := s.skipping, anchor := AnchorAt(c, b.text, s.offset)))
  {
    var b := Tail.Begun(c, m, look).value;
    AnchorIsAt(c, b.text, Tail.Swept(c, b, look).offset);
  }

  /** A poll reads at most 1 MiB and stops at 4000 events. */
  lemma PollWindow(b: Tail.Begin)
    requires b.position.offset <= |b.text|
    ensures Tail.WindowEnd(b) == if |b.text| <= b.position.offset + 1024 * 1024 then |b.text| else b.position.offset + 1024 * 1024
  {}

  // ---------- what a batch carries, and what is stored of the status ----------

  /** The batch of a reading carries its own instant, the time it covers, and a checkpoint. */
  lemma BatchCarries(n: Naming, c: Config, desk: Desk, r: Reading)
    requires r.Counted? ==> forall k :: k in r.keys ==> k in r.values
    ensures var b := BatchOf(n, c, desk, r);
            && b.sourceId == c.id && b.kind == c.kind && b.scope == c.scope && b.timezone == c.timezone && !b.compact && b.at == r.now
            && b.source == Some(SourceMeta(c.id, c.kind, c.scope, c.fingerprint)) && b.status == None
            && (r.Unavailable? ==> b.events == [] && b.deltas == [] && b.checkpoint == None && b.coverageStart == ZERO_TIME)
            && (r.Counted? ==>
                  && b.deltas == Yield(n, c, desk, r).deltas && b.coverageStart == Yield(n, c, desk, r).coverage
                  && b.events == (if c.kind == "mihomo" then EventsOf(n, desk.tracked, PollOf(c, r), r.keys) else [])
                  && b.checkpoint == Some(Checkpoint("counters", c.checkpointText(r.now, |r.values|), true, r.now)))
  {}

  /** The batch of a log carries the events it found, the time it covers and the place it came
      to, all three or none. */
  lemma TailBatchCarries(g: TailLedger.Stage, p: Tail.Polled, now: Time)
    ensures var b := TailLedger.BatchOf(g, p, now);
            && b.sourceId == g.config.id && b.kind == g.config.kind && b.scope == g.config.scope && b.timezone == g.config.timezone
            && !b.compact && b.at == now && b.deltas == [] && b.status == None
            && b.source == Some(SourceMeta(g.config.id, g.config.kind, g.config.scope, g.config.fingerprint))
            && (if p.failed then b.events == [] && b.checkpoint == None && b.coverageStart == ZERO_TIME
                else b.events == p.events && b.coverageStart == p.coverage
                     && b.checkpoint == Some(Checkpoint("access", g.render(p.memory.position), true, now)))
  {}

  /** The kinds whose batches have a compact form. */
  lemma CompactKinds(kind: string)
    ensures CountsBytes(kind) <==>
            kind == "mihomo" || kind == "interface" || kind == "host-interface" || kind == "stats" || kind == "xray-stats" || kind == "v2ray-stats"
  {}

  /** A commit stores the status it was sent, with the drops of retention brought up to date and
      the message cut to 4096 characters. */
  lemma StatusStored(days: Grid, t: Tables, b: Batch)
    requires Regular(days) && Transact(days, t, b).Ok? && b.status.Some?
    ensures var s := b.status.value;
            var row := Transact(days, t, b).value.tables.sources[b.sourceId];
            && b.sourceId in Transact(days, t, b).value.tables.sources && row.status.Some?
            && row.status.value.state == s.state && row.status.value.gapCount == s.gapCount && row.status.value.resetCount == s.resetCount
            && row.status.value.retentionDropped == row.retentionDrops
            && row.status.value.droppedEvents == s.droppedEvents + (if s.retentionDropped < row.retentionDrops then row.retentionDrops - s.retentionDropped else 0)
            && row.status.value.message == (match s.message
                                            case Told(text) => if |text| <= 4096 then Told(text) else Told(text[..4096])
                                            case _ => s.message)
  {
    Drops.CommitCounts(days, t, b);
  }

  /** A reader, or a restarted collector, sees the stored status, the drops of retention since
      then counted on top; of a source never polled an empty one. */
  lemma StatusRead(row: Source)
    ensures var s := Drops.ReadStatus(row);
            var stored := if row.status.Some? then row.status.value else Status(0, 0, 0, 0, NeverPolled, Cleared);
            && s.state == stored.state && s.gapCount == stored.gapCount && s.resetCount == stored.resetCount && s.message == stored.message
            && s.retentionDropped == row.retentionDrops
            && s.droppedEvents == stored.droppedEvents + if stored.retentionDropped < row.retentionDrops then row.retentionDrops - stored.retentionDropped else 0
  {}
}
