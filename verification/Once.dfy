/** Each observation counts once. */
module Once {
  import opened Clock
  import opened Calendar
  import opened Ledger
  import opened History
  import opened Coverage
  import opened Replay

  // When identifiers determine stamps, no run ever accepts two observations with the same
  // identity, whatever retention removes. This holds of any class of observations by itself:
  // only stands for those spoken of.

  predicate SameIdentity(o: Observation, p: Observation) {
    && o.source == p.source && o.id == p.id
    && (o.EventSeen? <==> p.EventSeen?) && (o.IntervalSeen? <==> p.IntervalSeen?)
  }

  /** The stamp an observation is remembered under. */
  function Stamp(o: Observation): int {
    match o
    case EventSeen(_, _, _, at, _) => Millis(at)
    case IntervalSeen(_, _, _, _, end, _, _) => Millis(end)
    case DayImported(_, _, _, start, _, _, _) => UnixMilli(start)
  }

  /** Either the stamp is below the watermark that would refuse the observation, or the
      table that would recognise it still holds it. */
  predicate Logged(t: Tables, o: Observation) {
    match o
    case EventSeen(source, id, _, _, _) =>
      var k := DetailKey(source, id, EventDetail);
      Stamp(o) < Cut(t.detailCutoff) || (k in t.details && t.details[k] == Stamp(o))
    case IntervalSeen(source, id, _, _, _, _, _) =>
      var k := DetailKey(source, id, DeltaDetail);
      Stamp(o) < Cut(t.detailCutoff) || (k in t.details && t.details[k] == Stamp(o))
    case DayImported(source, id, _, _, _, _, _) =>
      var k := ImportKey(source, id);
      Stamp(o) < Cut(t.dayCutoff) || (k in t.imports && t.imports[k] == Stamp(o))
  }

  predicate AllLogged(t: Tables, h: seq<Observation>, only: Observation -> bool) {
    forall i :: 0 <= i < |h| && only(h[i]) ==> Logged(t, h[i])
  }

  predicate NoRepeats(h: seq<Observation>, only: Observation -> bool) {
    forall i, j :: 0 <= i < j < |h| && only(h[i]) && only(h[j]) ==> !SameIdentity(h[i], h[j])
  }

  predicate DatedById(h: seq<Observation>, only: Observation -> bool) {
    forall i, j :: 0 <= i < j < |h| && only(h[i]) && only(h[j]) && SameIdentity(h[i], h[j]) ==> Stamp(h[i]) == Stamp(h[j])
  }

  predicate Clean(t: Tables, h: seq<Observation>, only: Observation -> bool) { AllLogged(t, h, only) && NoRepeats(h, only) }

  /** Every observation. */
  function Any(): Observation -> bool { _ => true }

  function Intervals(): Observation -> bool { (o: Observation) => o.IntervalSeen? }

  /** A new observation that no guard refuses repeats nothing already accepted. */
  lemma AppendClean(t: Tables, t': Tables, h: seq<Observation>, o: Observation, only: Observation -> bool)
    requires Clean(t, h, only) && DatedById(h + [o], only) && Grows(t, t') && SameMarks(t, t') && Logged(t', o)
    requires forall p :: Logged(t, p) && SameIdentity(p, o) ==> Stamp(p) != Stamp(o)
    ensures Clean(t', h + [o], only)
  {
    var g := h + [o];
    forall i | 0 <= i < |h| && only(h[i]) ensures Logged(t', h[i]) && (only(o) ==> !SameIdentity(h[i], o)) {
      assert g[i] == h[i] && g[|h|] == o;
      assert Logged(t, h[i]);
    }
  }

  lemma PrefixDated(h: seq<Observation>, a: seq<Observation>, b: seq<Observation>, only: Observation -> bool)
    requires a <= b && DatedById(h + b, only)
    ensures DatedById(h + a, only)
  {
    forall i, j | 0 <= i < j < |h + a| && only((h + a)[i]) && only((h + a)[j]) && SameIdentity((h + a)[i], (h + a)[j])
      ensures Stamp((h + a)[i]) == Stamp((h + a)[j])
    {
      assert (h + a)[i] == (h + b)[i] && (h + a)[j] == (h + b)[j];
    }
  }

  lemma {:induction false} EventsAppend(days: Grid, tx: Tx, source: string, events: seq<Event>)
    requires Regular(days) && AddEvents(days, tx, source, events).Ok?
    ensures tx.accepted <= AddEvents(days, tx, source, events).value.accepted
    decreases |events|
  {
    if events != [] {
      EventsAppend(days, AddEvent(days, tx, source, events[0]).value, source, events[1..]);
    }
  }

  lemma {:induction false} DeltasAppend(days: Grid, tx: Tx, source: string, deltas: seq<Delta>)
    requires Regular(days) && source in tx.tables.sources && AddDeltas(days, tx, source, deltas).Ok?
    ensures tx.accepted <= AddDeltas(days, tx, source, deltas).value.accepted
    decreases |deltas|
  {
    if deltas != [] {
      DeltasAppend(days, AddDelta(days, tx, source, deltas[0]).value, source, deltas[1..]);
    }
  }

  lemma EventOnce(days: Grid, tx: Tx, source: string, e: Event, h: seq<Observation>, only: Observation -> bool)
    requires Regular(days) && AddEvent(days, tx, source, e).Ok? && Clean(tx.tables, h + tx.accepted, only)
    requires DatedById(h + AddEvent(days, tx, source, e).value.accepted, only)
    ensures var tx' := AddEvent(days, tx, source, e).value; Clean(tx'.tables, h + tx'.accepted, only)
  {
    var tx' := AddEvent(days, tx, source, e).value;
    var key := DetailKey(source, e.id, EventDetail);
    if UnixMilli(e.at) >= Cut(tx.tables.detailCutoff) && key !in tx.tables.details {
      var o := EventSeen(source, e.id, Normalize(e.dims), e.at, if e.count == 0 then 1 else e.count);
      assert h + tx'.accepted == (h + tx.accepted) + [o];
      AppendClean(tx.tables, tx'.tables, h + tx.accepted, o, only);
    }
  }

  lemma DeltaOnce(days: Grid, tx: Tx, source: string, d: Delta, h: seq<Observation>, only: Observation -> bool)
    requires Regular(days) && source in tx.tables.sources && AddDelta(days, tx, source, d).Ok? && Clean(tx.tables, h + tx.accepted, only)
    requires DatedById(h + AddDelta(days, tx, source, d).value.accepted, only)
    requires 0 <= Cut(tx.tables.detailCutoff)
    ensures var tx' := AddDelta(days, tx, source, d).value; Clean(tx'.tables, h + tx'.accepted, only)
  {
    var tx' := AddDelta(days, tx, source, d).value;
    var t := tx.tables;
    DeltaGrows(days, tx, source, d);
    DeltaFrame(days, tx, source, d);
    if d.granularity == "day" {
      if UnixMilli(d.start) >= Cut(t.dayCutoff) && ImportKey(source, d.id) !in t.imports {
        var o := DayImported(source, d.id, Normalize(d.dims), d.start, d.end, d.up, d.down);
        assert h + tx'.accepted == (h + tx.accepted) + [o];
        AppendClean(t, tx'.tables, h + tx.accepted, o, only);
      }
    } else if UnixMilli(d.end) > Cut(t.detailCutoff) && DetailKey(source, d.id, DeltaDetail) !in t.details {
      var o := IntervalSeen(source, d.id, Normalize(d.dims), d.start, d.end, d.up, d.down);
      assert h + tx'.accepted == (h + tx.accepted) + [o];
      AppendClean(t, tx'.tables, h + tx.accepted, o, only);
    }
  }

  lemma {:induction false} EventsOnce(days: Grid, tx: Tx, source: string, events: seq<Event>, h: seq<Observation>, only: Observation -> bool)
    requires Regular(days) && AddEvents(days, tx, source, events).Ok? && Clean(tx.tables, h + tx.accepted, only)
    requires DatedById(h + AddEvents(days, tx, source, events).value.accepted, only)
    ensures var tx' := AddEvents(days, tx, source, events).value; Clean(tx'.tables, h + tx'.accepted, only)
    decreases |events|
  {
    if events != [] {
      var next := AddEvent(days, tx, source, events[0]).value;
      EventsAppend(days, next, source, events[1..]);
      PrefixDated(h, next.accepted, AddEvents(days, tx, source, events).value.accepted, only);
      EventOnce(days, tx, source, events[0], h, only);
      EventsOnce(days, next, source, events[1..], h, only);
    }
  }

  lemma {:induction false} DeltasOnce(days: Grid, tx: Tx, source: string, deltas: seq<Delta>, h: seq<Observation>, only: Observation -> bool)
    requires Regular(days) && source in tx.tables.sources && AddDeltas(days, tx, source, deltas).Ok? && Clean(tx.tables, h + tx.accepted, only)
    requires DatedById(h + AddDeltas(days, tx, source, deltas).value.accepted, only) && 0 <= Cut(tx.tables.detailCutoff)
    ensures var tx' := AddDeltas(days, tx, source, deltas).value; Clean(tx'.tables, h + tx'.accepted, only)
    decreases |deltas|
  {
    if deltas != [] {
      var next := AddDelta(days, tx, source, deltas[0]).value;
      DeltasAppend(days, next, source, deltas[1..]);
      PrefixDated(h, next.accepted, AddDeltas(days, tx, source, deltas).value.accepted, only);
      DeltaOnce(days, tx, source, deltas[0], h, only);
      DeltaFrame(days, tx, source, deltas[0]);
      DeltasOnce(days, next, source, deltas[1..], h, only);
    }
  }

  lemma TransactOnce(days: Grid, t: Tables, b: Batch, h: seq<Observation>, only: Observation -> bool)
    requires Regular(days) && Transact(days, t, b).Ok? && Clean(t, h, only) && 0 <= Cut(t.detailCutoff)
    requires DatedById(h + Transact(days, t, b).value.accepted, only)
    ensures Clean(Transact(days, t, b).value.tables, h + Transact(days, t, b).value.accepted, only)
  {
    var start := Tx(Bind(t, b).value, 0, []);
    var mid := AddEvents(days, start, b.sourceId, b.events).value;
    var tx := Observe(days, t, b).value;
    assert h + [] == h && Clean(start.tables, h + start.accepted, only);
    FinishFrame(days, tx, b, DropsOf(t, b.sourceId));
    DeltasAppend(days, mid, b.sourceId, b.deltas);
    PrefixDated(h, mid.accepted, tx.accepted, only);
    EventsOnce(days, start, b.sourceId, b.events, h, only);
    EventsFrame(days, start, b.sourceId, b.events);
    DeltasOnce(days, mid, b.sourceId, b.deltas, h, only);
    FinishKeepsClean(tx.tables, Transact(days, t, b).value.tables, h + tx.accepted, only);
  }

  lemma FinishKeepsClean(t: Tables, t': Tables, h: seq<Observation>, only: Observation -> bool)
    requires Clean(t, h, only) && SameMarks(t, t') && t'.details == t.details && t'.imports == t.imports
    ensures Clean(t', h, only)
  {
    forall i | 0 <= i < |h| && only(h[i]) ensures Logged(t', h[i]) {
      assert Logged(t, h[i]);
    }
  }

  lemma RememberedClean(t: Tables, t': Tables, h: seq<Observation>, only: Observation -> bool)
    requires Clean(t, h, only) && Remembers(t, t')
    ensures Clean(t', h, only)
  {
    forall i | 0 <= i < |h| && only(h[i]) ensures Logged(t', h[i]) {
      assert Logged(t, h[i]);
    }
  }

  lemma StepOnce(zones: map<string, Grid>, w: World, op: Op, only: Observation -> bool)
    requires AllRegular(zones) && Modern(w.tables, op) && EndsPastEpoch(w.tables)
    requires Clean(w.tables, w.history, only) && 0 <= Cut(w.tables.detailCutoff)
    requires DatedById(Apply(zones, w, op).history, only)
    ensures Clean(Apply(zones, w, op).tables, Apply(zones, w, op).history, only)
    ensures 0 <= Cut(Apply(zones, w, op).tables.detailCutoff)
  {
    StepRemembers(zones, w, op);
    if op.IngestOp? && Ingest(zones, w.tables, op.batch, op.storage).Ok? {
      TransactOnce(zones[ZoneName(op.batch)], w.tables, op.batch, w.history, only);
    } else {
      RememberedClean(w.tables, Apply(zones, w, op).tables, w.history, only);
    }
  }

  lemma StepDated(zones: map<string, Grid>, w: World, op: Op, only: Observation -> bool)
    requires AllRegular(zones) && DatedById(Apply(zones, w, op).history, only)
    ensures DatedById(w.history, only)
  {
    var h' := Apply(zones, w, op).history;
    assert w.history <= h';
    assert [] + w.history == w.history && [] + h' == h';
    PrefixDated([], w.history, h', only);
  }

  /** In every run, the accepted observations of a class whose identifiers determine stamps
      have pairwise distinct identities: retention never lets one be counted again. */
  lemma {:induction false} AcceptedOnce(zones: map<string, Grid>, ops: seq<Op>, only: Observation -> bool)
    requires AllRegular(zones) && ModernRun(zones, ops) && DatedById(Run(zones, ops).history, only)
    ensures NoRepeats(Run(zones, ops).history, only) && AllLogged(Run(zones, ops).tables, Run(zones, ops).history, only)
    ensures 0 <= Cut(Run(zones, ops).tables.detailCutoff)
  {
    if ops != [] {
      var n := |ops| - 1;
      var w := Run(zones, ops[..n]);
      assert ops[..n + 1] == ops;
      RunPrefix(zones, ops, n);
      RunEndsPastEpoch(zones, ops, n);
      StepDated(zones, w, ops[n], only);
      AcceptedOnce(zones, ops[..n], only);
      StepOnce(zones, w, ops[n], only);
    }
  }
}
