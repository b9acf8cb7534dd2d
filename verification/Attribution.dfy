/** Whose bytes they are, from the counters to the table. */
module Attribution {
  import opened Wrappers
  import opened Clock
  import opened Calendar
  import opened Ledger
  import opened SourceId
  import opened Counters
  import opened Filing
  import opened History
  import opened Rollup
  import opened Collector
  import opened CollectorRuns
  import opened Compact
  import opened Minting
  import opened Exact

  // ---------- what one poll measures ----------

  predicate Follows(t: Tracked, p: Poll) { t.last != ZERO_TIME && t.last < p.now && p.now <= t.last + p.maxGap }

  predicate SeenBefore(t: Tracked, key: string, cur: Counter) { key in t.previous && t.previous[key].identity == cur.identity }

  /** A connection that began since the last poll. */
  predicate BeganSince(t: Tracked, p: Poll, cur: Counter) { p.connections && cur.start != ZERO_TIME && t.last <= cur.start && cur.start < p.now }

  function UpBefore(t: Tracked, key: string, cur: Counter): int { if SeenBefore(t, key, cur) then t.previous[key].up else 0 }

  function DownBefore(t: Tracked, key: string, cur: Counter): int { if SeenBefore(t, key, cur) then t.previous[key].down else 0 }

  predicate Watchable(t: Tracked, p: Poll, key: string)
    requires key in p.values
  {
    Follows(t, p) && (SeenBefore(t, key, p.values[key]) || BeganSince(t, p, p.values[key]))
  }

  predicate FellBack(t: Tracked, p: Poll, key: string)
    requires key in p.values
  {
    var cur := p.values[key];
    Watchable(t, p, key) && (cur.up < UpBefore(t, key, cur) || cur.down < DownBefore(t, key, cur))
  }

  /** The counter moved on, in at least one direction and back in none. */
  predicate Advanced(t: Tracked, p: Poll, key: string)
    requires key in p.values
  {
    var cur := p.values[key];
    Watchable(t, p, key) && !FellBack(t, p, key) && (UpBefore(t, key, cur) < cur.up || DownBefore(t, key, cur) < cur.down)
  }

  /** It carries what the counter moved, whose it is, and from when to when. */
  predicate MeasuredAs(n: Naming, t: Tracked, p: Poll, key: string, d: Delta)
    requires key in p.values
  {
    var cur := p.values[key];
    && d.up == cur.up - UpBefore(t, key, cur) && d.down == cur.down - DownBefore(t, key, cur) && d.dims == cur.dims
    && d.start == (if SeenBefore(t, key, cur) then t.last else cur.start) && d.end == p.now && d.granularity == ""
    && d.id == n.digest(Encode([p.source, "delta", key, n.stamp(d.start), n.stamp(p.now)]))
  }

  lemma OutcomeMeans(n: Naming, t: Tracked, p: Poll, key: string)
    requires key in p.values
    ensures var o := OutcomeOf(n, t, p, key);
            && (o.Grew? <==> Advanced(t, p, key)) && (o.WentBack? <==> FellBack(t, p, key))
            && (o.Grew? ==> MeasuredAs(n, t, p, key, o.delta))
  {}

  /** Taken from the keys, none twice unless they list it twice. */
  predicate Among(of: seq<string>, keys: seq<string>) { (forall k :: k in of ==> k in keys) && (Apart(keys) ==> Apart(of)) }

  predicate Apart(keys: seq<string>) { forall i, j :: 0 <= i < j < |keys| ==> keys[i] != keys[j] }

  lemma AmongMore(of: seq<string>, keys: seq<string>)
    requires keys != [] && Among(of, keys[1..])
    ensures Among(of, keys) && Among([keys[0]] + of, keys)
  {
    forall k | k in of ensures k in keys { assert k in keys[1..]; }
    if Apart(keys) {
      var all := [keys[0]] + of;
      assert Apart(keys[1..]) by {
        forall i, j | 0 <= i < j < |keys[1..]| ensures keys[1..][i] != keys[1..][j] { assert keys[i + 1] != keys[j + 1]; }
      }
      forall i, j | 0 <= i < j < |all| ensures all[i] != all[j] {
        assert all[j] == of[j - 1] && of[j - 1] in keys[1..];
        if i > 0 { assert all[i] == of[i - 1]; }
      }
    }
  }

  ghost predicate MeasuredOf(n: Naming, t: Tracked, p: Poll, of: seq<string>, ds: seq<Delta>) {
    |of| == |ds| && forall i :: 0 <= i < |of| ==> of[i] in p.values && Advanced(t, p, of[i]) && MeasuredAs(n, t, p, of[i], ds[i])
  }

  lemma MeasuredMore(n: Naming, t: Tracked, p: Poll, of: seq<string>, ds: seq<Delta>, key: string, d: Delta)
    requires MeasuredOf(n, t, p, of, ds) && key in p.values && Advanced(t, p, key) && MeasuredAs(n, t, p, key, d)
    ensures MeasuredOf(n, t, p, [key] + of, [d] + ds)
  {}

  /** One interval for each counter that advanced. */
  lemma {:induction false} DeltasAre(n: Naming, t: Tracked, p: Poll, keys: seq<string>) returns (of: seq<string>)
    requires forall k :: k in keys ==> k in p.values
    ensures Among(of, keys) && MeasuredOf(n, t, p, of, DeltasOf(n, t, p, keys))
    ensures forall k :: k in keys && Advanced(t, p, k) ==> k in of
  {
    of := [];
    if keys != [] {
      OutcomeMeans(n, t, p, keys[0]);
      var rest := DeltasAre(n, t, p, keys[1..]);
      var ds := DeltasOf(n, t, p, keys[1..]);
      AmongMore(rest, keys);
      if Advanced(t, p, keys[0]) {
        of := [keys[0]] + rest;
        MeasuredMore(n, t, p, rest, ds, keys[0], OutcomeOf(n, t, p, keys[0]).delta);
      } else {
        of := rest;
        assert [] + ds == ds;
      }
    }
  }

  predicate NewConnection(t: Tracked, p: Poll, key: string)
    requires key in p.values
  {
    p.connections && !SeenBefore(t, key, p.values[key])
  }

  predicate SightedAs(n: Naming, t: Tracked, p: Poll, key: string, e: Event) {
    && key in p.values && NewConnection(t, p, key)
    && e == Event(n.digest(Encode([p.source, "connection", key, p.values[key].identity])), p.now, p.values[key].dims, 1)
  }

  predicate SightedOf(n: Naming, t: Tracked, p: Poll, of: seq<string>, es: seq<Event>) {
    |of| == |es| && forall i :: 0 <= i < |of| ==> SightedAs(n, t, p, of[i], es[i])
  }

  lemma SightedMore(n: Naming, t: Tracked, p: Poll, of: seq<string>, es: seq<Event>, key: string, e: Event)
    requires SightedOf(n, t, p, of, es) && SightedAs(n, t, p, key, e)
    ensures SightedOf(n, t, p, [key] + of, [e] + es)
  {}

  /** One event for each connection not seen before, whether or not the poll can measure. */
  lemma {:induction false} EventsAre(n: Naming, t: Tracked, p: Poll, keys: seq<string>) returns (of: seq<string>)
    requires forall k :: k in keys ==> k in p.values
    ensures Among(of, keys) && SightedOf(n, t, p, of, EventsOf(n, t, p, keys))
    ensures forall k :: k in keys && NewConnection(t, p, k) ==> k in of
  {
    of := [];
    if keys != [] {
      var rest := EventsAre(n, t, p, keys[1..]);
      var es := EventsOf(n, t, p, keys[1..]);
      AmongMore(rest, keys);
      if NewConnection(t, p, keys[0]) {
        of := [keys[0]] + rest;
        SightedMore(n, t, p, rest, es, keys[0], ConnectionEvent(n, p, keys[0]));
      } else {
        of := rest;
        assert [] + es == es;
      }
    }
  }

  lemma {:induction false} ResetsAre(n: Naming, t: Tracked, p: Poll, keys: seq<string>) returns (of: seq<string>)
    requires forall k :: k in keys ==> k in p.values
    ensures Among(of, keys) && |of| == ResetsOf(n, t, p, keys) && forall k :: k in of ==> k in keys && FellBack(t, p, k)
    ensures forall k :: k in keys && FellBack(t, p, k) ==> k in of
  {
    of := [];
    if keys != [] {
      OutcomeMeans(n, t, p, keys[0]);
      var rest := ResetsAre(n, t, p, keys[1..]);
      AmongMore(rest, keys);
      of := if FellBack(t, p, keys[0]) then [keys[0]] + rest else rest;
    }
  }

  // ---------- connections and their aggregate ----------

  /** What cannot be said of any connection. */
  predicate Nobodys(n: Naming, t: Tracked, p: Poll, d: Delta) {
    && d.dims == Dimensions("", "", "", "unattributed", "") && d.start == t.last && d.end == p.now && d.granularity == ""
    && d.id == n.digest(Encode([p.source, "unattributed", n.stamp(t.last), n.stamp(p.now)]))
  }

  /** Within the growth of the aggregate every measured interval stays as it is, and at most one
      more, of nobody, carries what is left; beyond it that one carries all of the growth. */
  predicate Kept(n: Naming, t: Tracked, p: Poll, ds: seq<Delta>, all: seq<Delta>, up: int, down: int) {
    if SumBytes(ds, Upload) <= up && SumBytes(ds, Download) <= down then
      && ds <= all && |all| == (if SumBytes(ds, Upload) < up || SumBytes(ds, Download) < down then |ds| + 1 else |ds|)
      && (|all| > |ds| ==>
            && Nobodys(n, t, p, all[|ds|])
            && all[|ds|].up == up - SumBytes(ds, Upload) && all[|ds|].down == down - SumBytes(ds, Download))
    else |all| == 1 && Nobodys(n, t, p, all[0]) && all[0].up == up && all[0].down == down
  }

  lemma AttributionKept(n: Naming, t: Tracked, p: Poll, ds: seq<Delta>, up: Count, down: Count)
    requires forall d :: d in ds ==> 0 <= d.up && 0 <= d.down
    ensures Kept(n, t, p, ds, Reconciled(n, t, p, ds, up, down), up, down)
  {
    FitsSums(ds, up, down);
  }

  /** Both aggregates were read and neither direction went back. */
  predicate Grown(before: Option<Totals>, now: Option<Totals>) {
    before.Some? && now.Some? && before.value.up <= now.value.up && before.value.down <= now.value.down
  }

  predicate Covered(ds: seq<Delta>, before: Option<Totals>, now: Option<Totals>)
    requires Grown(before, now)
  {
    SumBytes(ds, Upload) <= now.value.up - before.value.up && SumBytes(ds, Download) <= now.value.down - before.value.down
  }

  /** The time since the last poll counts as covered, the measurements stand as they are, and
      the poll is marked, exactly in these cases. */
  lemma WatchedCases(n: Naming, t: Tracked, p: Poll, keys: seq<string>, before: Option<Totals>, now: Option<Totals>)
    requires forall k :: k in keys ==> k in p.values
    ensures var ds := DeltasOf(n, t, p, keys);
            var y := WatchedOf(n, t, p, keys, before, now);
            && (y.coverage == (if Follows(t, p) && (before.None? || now.None? || (Grown(before, now) && Covered(ds, before, now))) then t.last else ZERO_TIME))
            && (y.mismatch <==> Follows(t, p) && (before.None? || now.None? || (Grown(before, now) && !Covered(ds, before, now))))
            && (y.resets == ResetsOf(n, t, p, keys) + if Follows(t, p) && before.Some? && now.Some? && !Grown(before, now) then 1 else 0)
            && (!Follows(t, p) ==> y.deltas == [])
            && (Follows(t, p) && (before.None? || now.None?) ==> y.deltas == ds)
            && (Follows(t, p) && before.Some? && now.Some? && !Grown(before, now) ==> y.deltas == [])
            && (Follows(t, p) && Grown(before, now) ==>
                  Kept(n, t, p, ds, y.deltas, now.value.up - before.value.up, now.value.down - before.value.down))
  {
    DeltasInWindow(n, t, p, keys);
    if !Follows(t, p) { GapMeasuresNothing(n, t, p, keys); }
    if Follows(t, p) && Grown(before, now) {
      FitsSums(DeltasOf(n, t, p, keys), now.value.up - before.value.up, now.value.down - before.value.down);
      AttributionKept(n, t, p, DeltasOf(n, t, p, keys), now.value.up - before.value.up, now.value.down - before.value.down);
    }
  }

  // ---------- by attribution ----------

  /** The bytes of those intervals that are filed under x. */
  function SumUnder(ds: seq<Delta>, x: Dimensions, w: Way): int {
    if ds == [] then 0 else (if FiledAs(ds[0].dims, x) then Bytes(ds[0], w) else 0) + SumUnder(ds[1..], x, w)
  }

  lemma {:induction false} SumUnderAppend(ds: seq<Delta>, d: Delta, x: Dimensions, w: Way)
    ensures SumUnder(ds + [d], x, w) == SumUnder(ds, x, w) + if FiledAs(d.dims, x) then Bytes(d, w) else 0
  {
    if ds == [] {
      assert [] + [d] == [d] && [d][1..] == [];
    } else {
      assert (ds + [d])[1..] == ds[1..] + [d];
      SumUnderAppend(ds[1..], d, x, w);
    }
  }

  /** What the counters whose traffic is filed under x moved since the last poll. */
  function MovedUnder(t: Tracked, p: Poll, keys: seq<string>, x: Dimensions, w: Way): int
    requires forall k :: k in keys ==> k in p.values
  {
    if keys == [] then 0
    else
      var cur := p.values[keys[0]];
      MovedUnder(t, p, keys[1..], x, w) +
      if Advanced(t, p, keys[0]) && FiledAs(cur.dims, x) then
        (if w == Upload then cur.up - UpBefore(t, keys[0], cur) else cur.down - DownBefore(t, keys[0], cur))
      else 0
  }

  lemma {:induction false} MeasuredUnder(n: Naming, t: Tracked, p: Poll, keys: seq<string>, x: Dimensions, w: Way)
    requires forall k :: k in keys ==> k in p.values
    ensures SumUnder(DeltasOf(n, t, p, keys), x, w) == MovedUnder(t, p, keys, x, w)
  {
    if keys != [] {
      var o, rest := OutcomeOf(n, t, p, keys[0]), DeltasOf(n, t, p, keys[1..]);
      MeasuredUnder(n, t, p, keys[1..], x, w);
      OutcomeMeans(n, t, p, keys[0]);
      assert o.Grew? ==> ([o.delta] + rest)[1..] == rest;
      assert [] + rest == rest;
    }
  }

  const NOBODYS := Dimensions("", "", "", "unattributed", "")

  /** What a poll within its aggregate brings under x: what the counters of x moved, and under
      nobody's name what the aggregate grew beyond all of them. */
  lemma WatchedUnder(n: Naming, t: Tracked, p: Poll, keys: seq<string>, before: Option<Totals>, now: Option<Totals>, x: Dimensions, w: Way)
    requires (forall k :: k in keys ==> k in p.values) && Follows(t, p) && Grown(before, now) && Covered(DeltasOf(n, t, p, keys), before, now)
    ensures SumUnder(WatchedOf(n, t, p, keys, before, now).deltas, x, w) ==
            MovedUnder(t, p, keys, x, w) +
            if x == NOBODYS then
              (if w == Upload then now.value.up - before.value.up else now.value.down - before.value.down) - SumBytes(DeltasOf(n, t, p, keys), w)
            else 0
  {
    var ds, all := DeltasOf(n, t, p, keys), WatchedOf(n, t, p, keys, before, now).deltas;
    WatchedCases(n, t, p, keys, before, now);
    MeasuredUnder(n, t, p, keys, x, w);
    if |all| > |ds| {
      assert all == ds + [all[|ds|]];
      SumUnderAppend(ds, all[|ds|], x, w);
      assert FiledAs(NOBODYS, NOBODYS);
      if FiledAs(NOBODYS, x) { FiledUnderOne(NOBODYS, NOBODYS, x); }
    } else {
      assert all == ds;
    }
  }

  // ---------- to the table ----------

  lemma {:induction false} KeptIsUnder(ds: seq<Delta>, id: string, x: Dimensions, f: Filter, w: Way)
    requires f == Tuple(id, x, f.res, f.lo, f.hi, f.column)
    ensures KeptBytes(ds, id, f, w) == SumUnder(ds, x, w)
  {
    if ds != [] {
      KeptIsUnder(ds[1..], id, x, f, w);
      NormalizeFiles(ds[0].dims);
      if FiledAs(ds[0].dims, x) { FiledUnderOne(ds[0].dims, Normalize(ds[0].dims), x); }
    }
  }

  /** The intervals a turn that commits has sent: the measured ones, or their compact form. */
  ghost function Sent(n: Naming, teller: Teller, desk: Desk, b: Batch, k: Book, first: Disk): seq<Delta> {
    if teller(k, b.(status := Some(desk.status)), first).1.None? || Compacted(n, b).None? then b.deltas
    else Compacted(n, b).value.deltas
  }

  lemma CommitAddsUnder(n: Naming, zones: map<string, Grid>, teller: Teller, desk: Desk, b: Batch, k: Book, first: Disk, second: Disk, now: Time, x: Dimensions, f: Filter, w: Way)
    requires AllRegular(zones) && Serves(zones, teller) && Injective(n) && AsksWay(f, w) && f == Tuple(b.sourceId, x, f.res, f.lo, f.hi, f.column)
    requires AllEmitted(n, b.sourceId, now, b.deltas) && DistinctIds(b.deltas)
    requires b.deltas != [] ==> Unminted(n, k.tables, b.sourceId, now)
    ensures var turn := Committed(n, teller, desk, b, k, first, second);
            Total(turn.book.history, f) == Total(k.history, f) +
              if turn.error.Some? then 0 else Exact.Brought(now, Cut(k.tables.detailCutoff), SumUnder(Sent(n, teller, desk, b, k, first), x, w))
  {
    var sent := b.(status := Some(desk.status));
    KeptIsUnder(b.deltas, b.sourceId, x, f, w);
    TellerAddsKept(n, zones, teller, k, sent, first, now, f, w);
    if Compacted(n, b).Some? {
      var again := Compacted(n, b).value.(status := Some(CompactStatus(desk.status, b)));
      CompactKeepsBytes(n, b, w);
      CompactEmitted(n, b, now);
      KeptIsUnder(again.deltas, b.sourceId, x, f, w);
      if teller(k, sent, first).1.Some? {
        TellerAddsKept(n, zones, teller, teller(k, sent, first).0, again, second, now, f, w);
      }
    }
  }

  /** The bytes under x of the intervals sent by the turns that committed, those at or below the
      watermark for details excepted. */
  ghost function CommittedUnder(g: Stage, acts: seq<Act>, x: Dimensions, w: Way): int
    requires Ready(g) && AllFair(acts)
  {
    if acts == [] then 0
    else
      var before := acts[..|acts| - 1];
      var a := acts[|acts| - 1];
      var s := Play(g, before);
      CommittedUnder(g, before, x, w) +
      if a.PollAct? && TurnOf(g, s, a).error.None? then
        Exact.Brought(a.reading.now, Cut(s.book.tables.detailCutoff),
              SumUnder(Sent(g.naming, g.teller, DeskAfterReading(g.naming, g.config, s.desk, a.reading), BatchOf(g.naming, g.config, s.desk, a.reading), s.book, a.first), x, w))
      else 0
  }

  /** Over any run whose polls have instants of their own the ledger holds under each
      attribution exactly the bytes that were sent under it. */
  lemma {:induction false} LedgerIsCommittedUnder(g: Stage, acts: seq<Act>, x: Dimensions, f: Filter, w: Way)
    requires Ready(g) && Injective(g.naming) && AllFair(acts) && OwnInstants(acts)
    requires AsksWay(f, w) && f == Tuple(g.config.id, x, f.res, f.lo, f.hi, f.column)
    ensures Total(Play(g, acts).book.history, f) == CommittedUnder(g, acts, x, w)
  {
    if acts != [] {
      var s := Play(g, acts[..|acts| - 1]);
      var a := acts[|acts| - 1];
      LedgerIsCommittedUnder(g, acts[..|acts| - 1], x, f, w);
      if a.PollAct? {
        if a.reading.Counted? {
          Exact.RunRecorded(g, acts[..|acts| - 1]);
          StoredIsOlder(g.naming, s.book.tables, g.config.id, Instants(acts[..|acts| - 1]), a.reading.now);
        }
        BatchEmitted(g.naming, g.config, s.desk, a.reading);
        CommitAddsUnder(g.naming, g.zones, g.teller, DeskAfterReading(g.naming, g.config, s.desk, a.reading), BatchOf(g.naming, g.config, s.desk, a.reading),
                        s.book, a.first, a.second, a.reading.now, x, f, w);
      }
    }
  }

  /** And so do the rows of the table, over a range that retention has not reached. */
  lemma TableIsCommittedUnder(g: Stage, acts: seq<Act>, x: Dimensions, days: Grid, f: Filter, w: Way)
    requires Ready(g) && Injective(g.naming) && AllFair(acts) && OwnInstants(acts)
    requires AsksWay(f, w) && f == Tuple(g.config.id, x, f.res, f.lo, f.hi, f.column)
    requires Regular(days) && Aligned(days, f) && Pinned(g.zones, Play(g, acts).book.tables, days)
    requires Retained(Play(g, acts).book.tables, f)
    requires forall o :: o in Play(g, acts).book.history && f.keep(o.source, o.dims) ==> Covers(f, o)
    ensures SumRows(Play(g, acts).book.tables.metrics, f) == CommittedUnder(g, acts, x, w)
  {
    var ops := PlayIsRun(g, acts);
    LedgerConserves(g.zones, ops, days, f);
    LedgerIsCommittedUnder(g, acts, x, f, w);
  }
}
