/** Turning counters that may restart at any time into measured intervals. */
module Counters {
  import opened Wrappers
  import opened Clock
  import opened Ledger
  import opened SourceId
  import Ranking

  type Count = n: int | 0 <= n <= MAX_INT64

  /** One counter as read: its totals so far, whose they are, and since when. */
  datatype Counter = Counter(up: Count, down: Count, dims: Dimensions, identity: string, start: Time)

  datatype Totals = Totals(up: Count, down: Count)

  datatype Way = Upload | Download

  function Value(c: Counter, w: Way): Count { if w.Upload? then c.up else c.down }

  function Bytes(d: Delta, w: Way): int { if w.Upload? then d.up else d.down }

  datatype Poll = Poll(source: string, now: Time, values: map<string, Counter>, maxGap: int, connections: bool)

  /** What the tracker remembers between polls. */
  datatype Tracked = Tracked(last: Time, previous: map<string, Counter>)

  const FORGOTTEN := Tracked(ZERO_TIME, map[])

  predicate Continuous(t: Tracked, p: Poll) {
    t.last != ZERO_TIME && p.now > t.last && p.now - t.last <= p.maxGap
  }

  predicate Known(t: Tracked, key: string, cur: Counter) {
    key in t.previous && t.previous[key].identity == cur.identity
  }

  /** Where an interval is measured from. */
  datatype Baseline = Baseline(up: Count, down: Count, start: Time)

  /** A counter seen before is measured from there; a connection that began since the last
      poll is measured from zero. */
  function BaselineOf(t: Tracked, p: Poll, key: string, cur: Counter): Option<Baseline> {
    if Known(t, key, cur) then Some(Baseline(t.previous[key].up, t.previous[key].down, t.last))
    else if !p.connections || cur.start == ZERO_TIME || cur.start < t.last || cur.start > p.now then None
    else if cur.start >= p.now then None
    else Some(Baseline(0, 0, cur.start))
  }

  datatype Outcome = Quiet | WentBack | Grew(delta: Delta)

  function DeltaId(n: Naming, p: Poll, key: string, start: Time): string {
    StableId(n, [p.source, "delta", key, n.stamp(start), n.stamp(p.now)])
  }

  /** What one key yields at one poll. */
  function OutcomeOf(n: Naming, t: Tracked, p: Poll, key: string): Outcome
    requires key in p.values
  {
    var cur := p.values[key];
    var base := BaselineOf(t, p, key, cur);
    if !Continuous(t, p) || base.None? then Quiet
    else if cur.up < base.value.up || cur.down < base.value.down then WentBack
    else if cur.up == base.value.up && cur.down == base.value.down then Quiet
    else Grew(Delta(DeltaId(n, p, key, base.value.start), "", base.value.start, p.now,
                    cur.up - base.value.up, cur.down - base.value.down, cur.dims))
  }

  function DeltasOf(n: Naming, t: Tracked, p: Poll, keys: seq<string>): seq<Delta>
    requires forall k :: k in keys ==> k in p.values
  {
    if keys == [] then []
    else
      var o := OutcomeOf(n, t, p, keys[0]);
      (if o.Grew? then [o.delta] else []) + DeltasOf(n, t, p, keys[1..])
  }

  function ConnectionEvent(n: Naming, p: Poll, key: string): Event
    requires key in p.values
  {
    Event(StableId(n, [p.source, "connection", key, p.values[key].identity]), p.now, p.values[key].dims, 1)
  }

  function EventsOf(n: Naming, t: Tracked, p: Poll, keys: seq<string>): seq<Event>
    requires forall k :: k in keys ==> k in p.values
  {
    if keys == [] then []
    else
      (if p.connections && !Known(t, keys[0], p.values[keys[0]]) then [ConnectionEvent(n, p, keys[0])] else [])
      + EventsOf(n, t, p, keys[1..])
  }

  function ResetsOf(n: Naming, t: Tracked, p: Poll, keys: seq<string>): nat
    requires forall k :: k in keys ==> k in p.values
  {
    if keys == [] then 0
    else (if OutcomeOf(n, t, p, keys[0]).WentBack? then 1 else 0) + ResetsOf(n, t, p, keys[1..])
  }

  function CoverageOf(t: Tracked, p: Poll): Time { if Continuous(t, p) then t.last else ZERO_TIME }

  /** The keys of a poll, each once, in string order. */
  ghost predicate Listing(keys: seq<string>, values: map<string, Counter>) {
    && (forall k :: k in keys <==> k in values)
    && (forall i, j :: 0 <= i < j < |keys| ==> keys[i] != keys[j] && Ranking.StrLe(keys[i], keys[j]))
  }

  // ---------- reconciling with an aggregate ----------

  function SumBytes(ds: seq<Delta>, w: Way): int {
    if ds == [] then 0 else Bytes(ds[0], w) + SumBytes(ds[1..], w)
  }

  /** The attributed deltas can be taken out of the aggregate growth one after the other. */
  predicate Fits(ds: seq<Delta>, up: int, down: int) {
    ds == [] || (ds[0].up <= up && ds[0].down <= down && Fits(ds[1..], up - ds[0].up, down - ds[0].down))
  }

  const UNATTRIBUTED_ROUTE := Dimensions("", "", "", "unattributed", "")

  function Unassigned(n: Naming, t: Tracked, p: Poll, up: Count, down: Count): Delta {
    Delta(StableId(n, [p.source, "unattributed", n.stamp(t.last), n.stamp(p.now)]), "", t.last, p.now, up, down, UNATTRIBUTED_ROUTE)
  }

  /** Attributed deltas and the remainder, or, when they do not fit, the aggregate alone. */
  function Reconciled(n: Naming, t: Tracked, p: Poll, ds: seq<Delta>, up: Count, down: Count): seq<Delta>
    requires forall d :: d in ds ==> 0 <= d.up && 0 <= d.down
  {
    if !Fits(ds, up, down) then [Unassigned(n, t, p, up, down)]
    else
      FitsSums(ds, up, down);
      var restUp, restDown := up - SumBytes(ds, Upload), down - SumBytes(ds, Download);
      if restUp > 0 || restDown > 0 then ds + [Unassigned(n, t, p, restUp, restDown)] else ds
  }

  /** Taking the deltas out one by one succeeds exactly when their sums are within the growth. */
  lemma {:induction false} FitsSums(ds: seq<Delta>, up: int, down: int)
    requires forall d :: d in ds ==> 0 <= d.up && 0 <= d.down
    requires 0 <= up && 0 <= down
    ensures Fits(ds, up, down) <==> SumBytes(ds, Upload) <= up && SumBytes(ds, Download) <= down
    ensures 0 <= SumBytes(ds, Upload) && 0 <= SumBytes(ds, Download)
  {
    if ds != [] {
      assert ds[0] in ds && forall d :: d in ds[1..] ==> d in ds;
      if ds[0].up <= up && ds[0].down <= down {
        FitsSums(ds[1..], up - ds[0].up, down - ds[0].down);
      } else {
        FitsSums(ds[1..], up, down);
      }
    }
  }

  /** What one poll of connections and aggregate yields, besides events. */
  datatype Watched = Watched(deltas: seq<Delta>, coverage: Time, resets: nat, mismatch: bool)

  function WatchedOf(n: Naming, t: Tracked, p: Poll, keys: seq<string>, before: Option<Totals>, now: Option<Totals>): Watched
    requires forall k :: k in keys ==> k in p.values
  {
    var ds := DeltasOf(n, t, p, keys);
    var resets := ResetsOf(n, t, p, keys);
    if !Continuous(t, p) then Watched(ds, ZERO_TIME, resets, false)
    else if now.None? || before.None? then Watched(ds, t.last, resets, true)
    else if now.value.up < before.value.up || now.value.down < before.value.down then Watched([], ZERO_TIME, resets + 1, false)
    else
      DeltasInWindow(n, t, p, keys);
      var up, down := now.value.up - before.value.up, now.value.down - before.value.down;
      var fits := Fits(ds, up, down);
      Watched(Reconciled(n, t, p, ds, up, down), if fits then t.last else ZERO_TIME, resets, !fits)
  }

  lemma {:induction false} OneMore(n: Naming, t: Tracked, p: Poll, keys: seq<string>, key: string)
    requires (forall k :: k in keys ==> k in p.values) && key in p.values
    ensures var o := OutcomeOf(n, t, p, key);
            && DeltasOf(n, t, p, keys + [key]) == DeltasOf(n, t, p, keys) + (if o.Grew? then [o.delta] else [])
            && ResetsOf(n, t, p, keys + [key]) == ResetsOf(n, t, p, keys) + if o.WentBack? then 1 else 0
    ensures EventsOf(n, t, p, keys + [key]) ==
            EventsOf(n, t, p, keys) + if p.connections && !Known(t, key, p.values[key]) then [ConnectionEvent(n, p, key)] else []
  {
    if keys == [] {
      assert [] + [key] == [key] && [key][1..] == [];
    } else {
      assert (keys + [key])[0] == keys[0] && (keys + [key])[1..] == keys[1..] + [key];
      assert keys[0] in keys && forall k :: k in keys[1..] ==> k in keys;
      OneMore(n, t, p, keys[1..], key);
    }
  }

  class CounterTracker {
    var last: Time
    var previous: map<string, Counter>
    var total: Option<Totals>

    constructor ()
      ensures State() == FORGOTTEN && total == None
    {
      last := ZERO_TIME;
      previous := map[];
      total := None;
    }

    function State(): Tracked
      reads this
    {
      Tracked(last, previous)
    }

    method Reset()
      modifies this
      ensures State() == FORGOTTEN && total == None
    {
      last := ZERO_TIME;
      previous := map[];
      total := None;
    }

    /** One key of a poll that follows the last one closely enough. */
    method Measure(n: Naming, p: Poll, key: string) returns (o: Outcome)
      requires key in p.values && Continuous(State(), p)
      ensures o == OutcomeOf(n, State(), p, key)
    {
      var cur := p.values[key];
      var start := last;
      var up: Count, down: Count := 0, 0;
      if key in previous && previous[key].identity == cur.identity {
        up, down := previous[key].up, previous[key].down;
      } else {
        if !p.connections || cur.start == ZERO_TIME || cur.start < last || cur.start > p.now {
          return Quiet;
        }
        start := cur.start;
        if start >= p.now {
          return Quiet;
        }
      }
      if cur.up < up || cur.down < down {
        return WentBack;
      }
      if cur.up == up && cur.down == down {
        return Quiet;
      }
      o := Grew(Delta(DeltaId(n, p, key, start), "", start, p.now, cur.up - up, cur.down - down, cur.dims));
    }

    method Observe(n: Naming, p: Poll, keys: seq<string>) returns (deltas: seq<Delta>, events: seq<Event>, coverage: Time, resets: nat)
      requires Listing(keys, p.values)
      modifies this`last, this`previous
      ensures deltas == DeltasOf(n, old(State()), p, keys) && events == EventsOf(n, old(State()), p, keys)
      ensures resets == ResetsOf(n, old(State()), p, keys) && coverage == CoverageOf(old(State()), p)
      ensures State() == Tracked(p.now, p.values)
    {
      ghost var t := State();
      var continuous := Continuous(State(), p);
      coverage := if continuous then last else ZERO_TIME;
      deltas, events, resets := [], [], 0;
      for i := 0 to |keys|
        invariant State() == t
        invariant deltas == DeltasOf(n, t, p, keys[..i]) && events == EventsOf(n, t, p, keys[..i])
        invariant resets == ResetsOf(n, t, p, keys[..i])
      {
        var key := keys[i];
        assert keys[..i + 1] == keys[..i] + [key];
        OneMore(n, t, p, keys[..i], key);
        if p.connections && !(key in previous && previous[key].identity == p.values[key].identity) {
          events := events + [ConnectionEvent(n, p, key)];
        }
        if !continuous {
          continue;
        }
        var o := Measure(n, p, key);
        if o.WentBack? {
          resets := resets + 1;
        } else if o.Grew? {
          deltas := deltas + [o.delta];
        }
      }
      assert keys[..|keys|] == keys;
      last, previous := p.now, p.values;
    }

    /** Connections, reconciled with the aggregate read in the same poll. */
    method ObserveConnections(n: Naming, p: Poll, keys: seq<string>, now: Option<Totals>)
        returns (deltas: seq<Delta>, events: seq<Event>, coverage: Time, resets: nat, mismatch: bool)
      requires Listing(keys, p.values) && p.connections
      modifies this
      ensures State() == Tracked(p.now, p.values) && total == now
      ensures events == EventsOf(n, old(State()), p, keys)
      ensures Watched(deltas, coverage, resets, mismatch) == WatchedOf(n, old(State()), p, keys, old(total), now)
    {
      var t, before := State(), total;
      mismatch := false;
      deltas, events, coverage, resets := Observe(n, p, keys);
      total := now;
      if coverage == ZERO_TIME {
        return;
      }
      if now.None? || before.None? {
        mismatch := true;
        return;
      }
      if now.value.up < before.value.up || now.value.down < before.value.down {
        resets := resets + 1;
        deltas := [];
        coverage := ZERO_TIME;
        return;
      }
      DeltasInWindow(n, t, p, keys);
      var up: Count, down: Count := now.value.up - before.value.up, now.value.down - before.value.down;
      var fits, restUp, restDown := TakeOut(deltas, up, down);
      if !fits {
        mismatch := true;
        deltas := [Unassigned(n, t, p, up, down)];
        coverage := ZERO_TIME;
        return;
      }
      if restUp > 0 || restDown > 0 {
        deltas := deltas + [Unassigned(n, t, p, restUp, restDown)];
      }
    }
  }

  /** Take the deltas out of the growth, stopping at the first that does not fit. */
  method TakeOut(ds: seq<Delta>, up: Count, down: Count) returns (fits: bool, restUp: Count, restDown: Count)
    requires forall d :: d in ds ==> 0 <= d.up && 0 <= d.down
    ensures fits <==> SumBytes(ds, Upload) <= up && SumBytes(ds, Download) <= down
    ensures fits <==> Fits(ds, up, down)
    ensures fits ==> restUp == up - SumBytes(ds, Upload) && restDown == down - SumBytes(ds, Download)
  {
    restUp, restDown := up, down;
    FitsSums(ds, up, down);
    for i := 0 to |ds|
      invariant Fits(ds, up, down) <==> Fits(ds[i..], restUp, restDown)
      invariant SumBytes(ds[i..], Upload) == SumBytes(ds, Upload) - (up - restUp)
      invariant SumBytes(ds[i..], Download) == SumBytes(ds, Download) - (down - restDown)
    {
      var d := ds[i];
      assert d in ds && ds[i..][0] == d && ds[i..][1..] == ds[i + 1..];
      if d.up > restUp || d.down > restDown {
        return false, 0, 0;
      }
      restUp, restDown := restUp - d.up, restDown - d.down;
    }
    assert ds[|ds|..] == [];
    fits := true;
  }

  // ---------- one poll ----------

  /** Every interval measured lies inside the poll's window and measures something. */
  lemma {:induction false} DeltasInWindow(n: Naming, t: Tracked, p: Poll, keys: seq<string>)
    requires forall k :: k in keys ==> k in p.values
    ensures forall d :: d in DeltasOf(n, t, p, keys) ==>
              && Continuous(t, p) && t.last <= d.start < d.end == p.now && d.end - d.start <= p.maxGap && d.start != ZERO_TIME
              && 0 <= d.up && 0 <= d.down && 0 < d.up + d.down && d.granularity == ""
  {
    if keys != [] {
      DeltasInWindow(n, t, p, keys[1..]);
    }
  }

  lemma {:induction false} SumAppend(ds: seq<Delta>, d: Delta, w: Way)
    ensures SumBytes(ds + [d], w) == SumBytes(ds, w) + Bytes(d, w)
  {
    if ds == [] {
      assert [] + [d] == [d] && [d][1..] == [];
    } else {
      assert (ds + [d])[1..] == ds[1..] + [d];
      SumAppend(ds[1..], d, w);
    }
  }

  /** Whatever branch reconciliation takes, the deltas sum exactly to the aggregate's
      growth in both directions, and none is negative. */
  lemma ReconciledSumsToGrowth(n: Naming, t: Tracked, p: Poll, ds: seq<Delta>, up: Count, down: Count, w: Way)
    requires forall d :: d in ds ==> 0 <= d.up && 0 <= d.down
    ensures SumBytes(Reconciled(n, t, p, ds, up, down), w) == if w.Upload? then up else down
    ensures forall d :: d in Reconciled(n, t, p, ds, up, down) ==> 0 <= d.up && 0 <= d.down
  {
    FitsSums(ds, up, down);
    if Fits(ds, up, down) {
      var restUp, restDown := up - SumBytes(ds, Upload), down - SumBytes(ds, Download);
      SumAppend(ds, Unassigned(n, t, p, restUp, restDown), w);
    } else {
      SumAppend([], Unassigned(n, t, p, up, down), w);
      assert [] + [Unassigned(n, t, p, up, down)] == [Unassigned(n, t, p, up, down)];
    }
  }

  lemma {:induction false} GapMeasuresNothing(n: Naming, t: Tracked, p: Poll, keys: seq<string>)
    requires (forall k :: k in keys ==> k in p.values) && !Continuous(t, p)
    ensures DeltasOf(n, t, p, keys) == []
  {
    if keys != [] {
      GapMeasuresNothing(n, t, p, keys[1..]);
    }
  }

  lemma DeltasNonNegative(n: Naming, t: Tracked, p: Poll, keys: seq<string>, w: Way)
    requires forall k :: k in keys ==> k in p.values
    ensures 0 <= SumBytes(DeltasOf(n, t, p, keys), w)
    ensures forall d :: d in DeltasOf(n, t, p, keys) ==> 0 <= d.up && 0 <= d.down
  {
    DeltasInWindow(n, t, p, keys);
    FitsSums(DeltasOf(n, t, p, keys), 0, 0);
  }

  /** The bytes of a poll of connections: with both aggregate readings, exactly the growth
      of the aggregate unless that went back; without one, what the connections show. */
  lemma WatchedBytes(n: Naming, t: Tracked, p: Poll, keys: seq<string>, before: Option<Totals>, now: Option<Totals>, w: Way)
    requires forall k :: k in keys ==> k in p.values
    ensures var sum := SumBytes(WatchedOf(n, t, p, keys, before, now).deltas, w);
            && 0 <= sum
            && (!Continuous(t, p) ==> sum == 0)
            && (Continuous(t, p) && (now.None? || before.None?) ==> sum == SumBytes(DeltasOf(n, t, p, keys), w))
            && (Continuous(t, p) && now.Some? && before.Some? ==>
                  if now.value.up < before.value.up || now.value.down < before.value.down then sum == 0
                  else sum == if w.Upload? then now.value.up - before.value.up else now.value.down - before.value.down)
  {
    var ds := DeltasOf(n, t, p, keys);
    var all := WatchedOf(n, t, p, keys, before, now).deltas;
    DeltasNonNegative(n, t, p, keys, w);
    if !Continuous(t, p) {
      GapMeasuresNothing(n, t, p, keys);
      assert all == [];
    } else if now.None? || before.None? {
      assert all == ds;
    } else if before.value.up <= now.value.up && before.value.down <= now.value.down {
      var up, down := now.value.up - before.value.up, now.value.down - before.value.down;
      assert all == Reconciled(n, t, p, ds, up, down);
      ReconciledSumsToGrowth(n, t, p, ds, up, down, w);
    } else {
      assert all == [];
    }
  }

  /** An identifier names the key and the interval: measurements with one identifier are
      of one key over one interval. */
  lemma DeltaIdNames(n: Naming, p: Poll, key: string, start: Time, p': Poll, key': string, start': Time)
    requires Injective(n) && DeltaId(n, p, key, start) == DeltaId(n, p', key', start')
    ensures p.source == p'.source && key == key' && start == start' && p.now == p'.now
  {
    var a := [p.source, "delta", key, n.stamp(start), n.stamp(p.now)];
    var b := [p'.source, "delta", key', n.stamp(start'), n.stamp(p'.now)];
    StableIdInjective(n, a, b);
    assert a[0] == b[0] && a[2] == b[2] && a[3] == b[3] && a[4] == b[4];
  }
}
