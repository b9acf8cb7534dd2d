/** The table shows how far the counters moved. */
module Steady {
  import opened Clock
  import opened Calendar
  import opened Ledger
  import opened History
  import opened Rollup
  import opened SourceId
  import opened Counters
  import opened CounterRuns
  import opened Collector
  import opened CollectorRuns
  import opened Exact

  // In a run in which nothing is missed, the rows of a source sum to exactly the growth of
  // its real counters since the first poll, and of the aggregate where there is one.

  /** What one act of such a run does: a retention pass, or a poll whose batch is committed
      at an instant retention has not reached. */
  ghost predicate Counts(g: Stage, acts: seq<Act>)
    requires Ready(g) && AllFair(acts) && acts != []
  {
    var a := acts[|acts| - 1];
    var s := Play(g, acts[..|acts| - 1]);
    || a.RetainAct?
    || (a.PollAct? && a.reading.Counted? && TurnOf(g, s, a).error.None? && UnixMilli(a.reading.now) > Cut(s.book.tables.detailCutoff))
  }

  ghost predicate AllCount(g: Stage, acts: seq<Act>)
    requires Ready(g) && AllFair(acts)
  {
    acts == [] || (AllCount(g, acts[..|acts| - 1]) && Counts(g, acts))
  }

  /** In such a run all that is measured is committed. */
  lemma {:induction false} AllIsCommitted(g: Stage, acts: seq<Act>, w: Way)
    requires Ready(g) && AllFair(acts) && AllCount(g, acts)
    ensures CommittedBytes(g, acts, w) == MeasuredBytes(g, acts, w)
  {
    if acts != [] {
      AllIsCommitted(g, acts[..|acts| - 1], w);
    }
  }

  // ---------- counters read one by one ----------

  function MeasuredOver(n: Naming, t: Tracked, r: Round, keys: seq<string>, w: Way): int {
    if keys == [] then 0 else Measured(n, t, r, keys[0], w) + MeasuredOver(n, t, r, keys[1..], w)
  }

  lemma {:induction false} DeltasByKey(n: Naming, t: Tracked, p: Poll, committed: bool, keys: seq<string>, w: Way)
    requires forall k :: k in keys ==> k in p.values
    ensures SumBytes(DeltasOf(n, t, p, keys), w) == MeasuredOver(n, t, Read(p, committed), keys, w)
  {
    if keys != [] {
      assert keys[0] in keys && forall k :: k in keys[1..] ==> k in keys;
      DeltasByKey(n, t, p, committed, keys[1..], w);
      var o := OutcomeOf(n, t, p, keys[0]);
      var rest := DeltasOf(n, t, p, keys[1..]);
      if o.Grew? { assert ([o.delta] + rest)[1..] == rest; } else { assert [] + rest == rest; }
    }
  }

  /** What the lives of the single counters add up to. */
  ghost function MeasuredByKey(g: Stage, acts: seq<Act>, keys: seq<string>, w: Way): int
    requires Ready(g) && AllFair(acts)
  {
    if keys == [] then 0
    else MeasuredIn(g.naming, Lived(g, acts, keys[0]), keys[0], w) + MeasuredByKey(g, acts, keys[1..], w)
  }

  lemma {:induction false} PollByKey(g: Stage, acts: seq<Act>, keys: seq<string>, w: Way)
    requires Ready(g) && AllFair(acts) && acts != [] && acts[|acts| - 1].PollAct? && acts[|acts| - 1].reading.Counted?
    ensures var before := acts[..|acts| - 1];
            var a := acts[|acts| - 1];
            var r := Read(PollOf(g.config, a.reading), TurnOf(g, Play(g, before), a).error.None?);
            MeasuredByKey(g, acts, keys, w) == MeasuredByKey(g, before, keys, w) + MeasuredOver(g.naming, Play(g, before).desk.tracked, r, keys, w)
  {
    if keys != [] {
      var before := acts[..|acts| - 1];
      PollByKey(g, acts, keys[1..], w);
      TrackerIsState(g, before, keys[0]);
      var lived := Lived(g, acts, keys[0]);
      assert lived[..|lived| - 1] == Lived(g, before, keys[0]);
    }
  }

  lemma {:induction false} RetainByKey(g: Stage, acts: seq<Act>, keys: seq<string>, w: Way)
    requires Ready(g) && AllFair(acts) && acts != [] && acts[|acts| - 1].RetainAct?
    ensures MeasuredByKey(g, acts, keys, w) == MeasuredByKey(g, acts[..|acts| - 1], keys, w)
  {
    if keys != [] {
      RetainByKey(g, acts, keys[1..], w);
    }
  }

  /** Every reading lists the same counters. */
  predicate Lists(acts: seq<Act>, keys: seq<string>) {
    forall i :: 0 <= i < |acts| && acts[i].PollAct? && acts[i].reading.Counted? ==> acts[i].reading.keys == keys
  }

  lemma {:induction false} BatchesByKey(g: Stage, acts: seq<Act>, keys: seq<string>, w: Way)
    requires Ready(g) && AllFair(acts) && AllCount(g, acts) && Lists(acts, keys) && g.config.kind != "mihomo"
    ensures MeasuredBytes(g, acts, w) == MeasuredByKey(g, acts, keys, w)
  {
    if acts == [] {
      NothingByKey(g, keys, w);
    } else {
      var before := acts[..|acts| - 1];
      var a := acts[|acts| - 1];
      BatchesByKey(g, before, keys, w);
      if a.RetainAct? {
        RetainByKey(g, acts, keys, w);
      } else {
        var s := Play(g, before);
        assert a.reading.keys == keys;
        PollByKey(g, acts, keys, w);
        DeltasByKey(g.naming, s.desk.tracked, PollOf(g.config, a.reading), TurnOf(g, s, a).error.None?, keys, w);
      }
    }
  }

  lemma {:induction false} NothingByKey(g: Stage, keys: seq<string>, w: Way)
    requires Ready(g)
    ensures MeasuredByKey(g, [], keys, w) == 0
  {
    if keys != [] {
      NothingByKey(g, keys[1..], w);
    }
  }

  /** How far a real counter has moved since the first poll. */
  function Moved(ss: seq<Stretch>, w: Way): int {
    if ss == [] then 0 else Truth(ss, w) - Truth(ss[..1], w)
  }

  ghost function MovedByKey(g: Stage, acts: seq<Act>, keys: seq<string>, w: Way): int
    requires Ready(g) && AllFair(acts)
  {
    if keys == [] then 0 else Moved(Lived(g, acts, keys[0]), w) + MovedByKey(g, acts, keys[1..], w)
  }

  ghost predicate SteadyKeys(g: Stage, acts: seq<Act>, keys: seq<string>)
    requires Ready(g) && AllFair(acts)
  {
    forall k :: k in keys ==> CounterRuns.Steady(Lived(g, acts, k), k)
  }

  lemma {:induction false} SteadyByKey(g: Stage, acts: seq<Act>, keys: seq<string>, w: Way)
    requires Ready(g) && AllFair(acts) && TrueReadings(g, acts) && SteadyKeys(g, acts, keys)
    ensures MeasuredByKey(g, acts, keys, w) == MovedByKey(g, acts, keys, w)
  {
    if keys != [] {
      assert keys[0] in keys && forall k :: k in keys[1..] ==> k in keys;
      SteadyByKey(g, acts, keys[1..], w);
      if Lived(g, acts, keys[0]) != [] { SteadyMeasuresAll(g.naming, Lived(g, acts, keys[0]), keys[0], w); }
    }
  }

  /** Where no poll fails, no gap opens and no counter restarts or disappears, the rows of a
      source sum to exactly what its counters moved since the first poll. */
  lemma TableIsMovement(g: Stage, acts: seq<Act>, keys: seq<string>, days: Grid, f: Filter, w: Way)
    requires Ready(g) && Injective(g.naming) && AllFair(acts) && OwnInstants(acts) && AsksBytes(f, g.config.id, w)
    requires TrueReadings(g, acts) && AllCount(g, acts) && Lists(acts, keys) && SteadyKeys(g, acts, keys) && g.config.kind != "mihomo"
    requires Regular(days) && Aligned(days, f) && Pinned(g.zones, Play(g, acts).book.tables, days)
    requires Retained(Play(g, acts).book.tables, f)
    requires forall o :: o in Play(g, acts).book.history && f.keep(o.source, o.dims) ==> Covers(f, o)
    ensures SumRows(Play(g, acts).book.tables.metrics, f) == MovedByKey(g, acts, keys, w)
  {
    var ops := PlayIsRun(g, acts);
    LedgerConserves(g.zones, ops, days, f);
    LedgerIsCommitted(g, acts, f, w);
    AllIsCommitted(g, acts, w);
    BatchesByKey(g, acts, keys, w);
    SteadyByKey(g, acts, keys, w);
  }

  // ---------- connections and their aggregate ----------

  predicate HasPoll(acts: seq<Act>) { exists i :: 0 <= i < |acts| && acts[i].PollAct? }

  /** The aggregate at the first poll. */
  function AtFirst(acts: seq<Act>, w: Way): nat {
    if acts == [] then 0
    else if HasPoll(acts[..|acts| - 1]) then AtFirst(acts[..|acts| - 1], w)
    else AggregateTruth(acts, w)
  }

  /** Every poll reads the aggregate, follows the one before, and the aggregate never starts over. */
  ghost predicate SteadyAggregate(g: Stage, acts: seq<Act>)
    requires Ready(g) && AllFair(acts)
  {
    acts == [] ||
    (var before := acts[..|acts| - 1];
     var a := acts[|acts| - 1];
     && SteadyAggregate(g, before)
     && (a.PollAct? && a.reading.Counted? ==>
           && a.reading.totals.Some? && a.reading.now != ZERO_TIME
           && (HasPoll(before) ==> Continuous(Play(g, before).desk.tracked, PollOf(g.config, a.reading)) && Restart !in a.aggregate)))
  }

  lemma {:induction false} TotalsKnown(g: Stage, acts: seq<Act>)
    requires Ready(g) && AllFair(acts) && AllCount(g, acts) && SteadyAggregate(g, acts) && g.config.kind == "mihomo"
    ensures if HasPoll(acts) then Play(g, acts).desk.total.Some? else Play(g, acts).desk.tracked == FORGOTTEN
  {
    if acts != [] {
      var before := acts[..|acts| - 1];
      var a := acts[|acts| - 1];
      TotalsKnown(g, before);
      if a.PollAct? {
        TurnTracks(g, Play(g, before), a);
        assert HasPoll(acts);
      } else {
        assert HasPoll(before) <==> HasPoll(acts);
      }
    }
  }

  lemma TurnIsGrowth(g: Stage, acts: seq<Act>, w: Way)
    requires Ready(g) && AllFair(acts) && TrueReadings(g, acts) && SteadyAggregate(g, acts) && g.config.kind == "mihomo"
    requires acts != [] && acts[|acts| - 1].PollAct? && acts[|acts| - 1].reading.Counted?
    requires var desk := Play(g, acts[..|acts| - 1]).desk;
             if HasPoll(acts[..|acts| - 1]) then desk.total.Some? else desk.tracked == FORGOTTEN
    ensures var before := acts[..|acts| - 1];
            SumBytes(BatchOf(g.naming, g.config, Play(g, before).desk, acts[|acts| - 1].reading).deltas, w) ==
            if HasPoll(before) then AggregateTruth(acts, w) - AggregateTruth(before, w) else 0
  {
    var before := acts[..|acts| - 1];
    var a := acts[|acts| - 1];
    var desk := Play(g, before).desk;
    WatchedBytes(g.naming, desk.tracked, PollOf(g.config, a.reading), a.reading.keys, desk.total, a.reading.totals, w);
    if HasPoll(before) {
      AggregateRemembered(g, before);
      CounterBounds(AggregateTruth(before, Upload), a.aggregate, Upload);
      CounterBounds(AggregateTruth(before, Download), a.aggregate, Download);
    }
  }

  lemma {:induction false} BatchesAreGrowth(g: Stage, acts: seq<Act>, w: Way)
    requires Ready(g) && AllFair(acts) && TrueReadings(g, acts) && AllCount(g, acts) && SteadyAggregate(g, acts) && g.config.kind == "mihomo"
    ensures MeasuredBytes(g, acts, w) == if HasPoll(acts) then AggregateTruth(acts, w) - AtFirst(acts, w) else 0
  {
    if acts != [] {
      var before := acts[..|acts| - 1];
      BatchesAreGrowth(g, before, w);
      TotalsKnown(g, before);
      if acts[|acts| - 1].PollAct? {
        TurnIsGrowth(g, acts, w);
        assert HasPoll(acts);
      } else {
        assert HasPoll(before) <==> HasPoll(acts);
      }
    }
  }

  /** For connections: whatever the single connections show and however they are reconciled,
      the rows sum to exactly the growth of the aggregate since the first poll. */
  lemma TableIsAggregate(g: Stage, acts: seq<Act>, days: Grid, f: Filter, w: Way)
    requires Ready(g) && Injective(g.naming) && AllFair(acts) && OwnInstants(acts) && AsksBytes(f, g.config.id, w)
    requires TrueReadings(g, acts) && AllCount(g, acts) && SteadyAggregate(g, acts) && g.config.kind == "mihomo" && HasPoll(acts)
    requires Regular(days) && Aligned(days, f) && Pinned(g.zones, Play(g, acts).book.tables, days)
    requires Retained(Play(g, acts).book.tables, f)
    requires forall o :: o in Play(g, acts).book.history && f.keep(o.source, o.dims) ==> Covers(f, o)
    ensures SumRows(Play(g, acts).book.tables.metrics, f) == AggregateTruth(acts, w) - AtFirst(acts, w)
  {
    var ops := PlayIsRun(g, acts);
    LedgerConserves(g.zones, ops, days, f);
    LedgerIsCommitted(g, acts, f, w);
    AllIsCommitted(g, acts, w);
    BatchesAreGrowth(g, acts, w);
  }
}
