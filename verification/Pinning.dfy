/** What a database is bound to. */
module Pinning {
  import opened Clock
  import opened Calendar
  import opened Ledger
  import opened History

  // The first commit decides its time zone, and the first commit of a source decides its
  // kind, scope and binding.

  /** The same source: its kind and scope, and its binding once it has one. */
  predicate SameSource(s: Source, s': Source) {
    s'.kind == s.kind && s'.scope == s.scope && (s.identity != "" ==> s'.identity == s.identity)
  }

  ghost predicate Pins(t: Tables, t': Tables) {
    && (t.timezone.Some? ==> t'.timezone == t.timezone)
    && (forall s :: s in t.sources ==> s in t'.sources && SameSource(t.sources[s], t'.sources[s]))
  }

  lemma PinsChain(t: Tables, u: Tables, v: Tables)
    requires Pins(t, u) && Pins(u, v)
    ensures Pins(t, v)
  {}

  lemma BindCounts(t: Tables, b: Batch)
    requires Bind(t, b).Ok? && |t.sources| <= 128
    ensures |Bind(t, b).value.sources| <= 128
  {
    AddKey(t.sources, b.sourceId, Bind(t, b).value.sources[b.sourceId]);
  }

  lemma AddKey(m: map<string, Source>, k: string, v: Source)
    ensures |m[k := v]| == |m| + if k in m then 0 else 1
  {
    assert m[k := v].Keys == m.Keys + {k};
    assert |m[k := v]| == |m[k := v].Keys| && |m| == |m.Keys|;
  }

  /** Binding adds at most one source, never beyond 128, and refuses any other kind, scope,
      binding or time zone than the recorded one. */
  lemma BindPins(t: Tables, b: Batch)
    requires Bind(t, b).Ok? && |t.sources| <= 128
    ensures Pins(t, Bind(t, b).value) && |Bind(t, b).value.sources| <= 128
    ensures var s := Bind(t, b).value.sources[b.sourceId];
            && s.kind == b.kind && s.scope == b.scope
            && (b.source.Some? ==> s.identity == b.source.value.fingerprint)
  {
    BindCounts(t, b);
  }

  lemma ObservePins(days: Grid, t: Tables, b: Batch)
    requires Regular(days) && Observe(days, t, b).Ok? && |t.sources| <= 128
    ensures Pins(t, Observe(days, t, b).value.tables) && |Observe(days, t, b).value.tables.sources| <= 128
    ensures var s := Observe(days, t, b).value.tables.sources[b.sourceId]; s.kind == b.kind && s.scope == b.scope
  {
    var bound := Bind(t, b).value;
    var seen := Observe(days, t, b).value.tables;
    BindPins(t, b);
    ObserveFrame(days, t, b);
    assert seen.sources.Keys == bound.sources.Keys;
    assert |seen.sources| == |seen.sources.Keys| == |bound.sources.Keys| == |bound.sources|;
  }

  lemma FinishPins(days: Grid, tx: Tx, b: Batch, drops: int)
    requires Regular(days) && b.sourceId in tx.tables.sources && Finish(days, tx, b, drops).Ok?
    ensures Pins(tx.tables, Finish(days, tx, b, drops).value.tables)
    ensures Finish(days, tx, b, drops).value.tables.sources.Keys == tx.tables.sources.Keys
  {}

  lemma TransactPins(days: Grid, t: Tables, b: Batch)
    requires Regular(days) && Transact(days, t, b).Ok? && |t.sources| <= 128
    ensures Pins(t, Transact(days, t, b).value.tables) && |Transact(days, t, b).value.tables.sources| <= 128
  {
    var tx := Observe(days, t, b).value;
    var done := Transact(days, t, b).value.tables;
    ObservePins(days, t, b);
    FinishPins(days, tx, b, DropsOf(t, b.sourceId));
    PinsChain(t, tx.tables, done);
    assert |done.sources| == |done.sources.Keys| == |tx.tables.sources.Keys| == |tx.tables.sources|;
  }

  /** What a database is bound to never changes in any run, whatever is ingested, pruned or
      evicted, and it never holds more than 128 sources. */
  lemma {:induction false} RunPins(zones: map<string, Grid>, ops: seq<Op>, i: nat)
    requires AllRegular(zones) && i <= |ops|
    ensures Pins(Run(zones, ops[..i]).tables, Run(zones, ops).tables)
    ensures |Run(zones, ops).tables.sources| <= 128
    decreases |ops|
  {
    if i < |ops| {
      var before := ops[..|ops| - 1];
      var w := Run(zones, before);
      RunPins(zones, before, i);
      assert before[..i] == ops[..i];
      StepPins(zones, w, ops[|ops| - 1]);
      PinsChain(Run(zones, ops[..i]).tables, w.tables, Run(zones, ops).tables);
    } else {
      assert ops[..i] == ops;
      if ops != [] {
        RunPins(zones, ops[..|ops| - 1], 0);
        StepPins(zones, Run(zones, ops[..|ops| - 1]), ops[|ops| - 1]);
      }
    }
  }

  lemma StepPins(zones: map<string, Grid>, w: World, op: Op)
    requires AllRegular(zones) && |w.tables.sources| <= 128
    ensures Pins(w.tables, Apply(zones, w, op).tables) && |Apply(zones, w, op).tables.sources| <= 128
  {
    if op.IngestOp? && Ingest(zones, w.tables, op.batch, op.storage).Ok? {
      TransactPins(zones[ZoneName(op.batch)], w.tables, op.batch);
    }
  }

  /** The stamp a checkpoint asks for, the batch's own without one. */
  function SavedAt(b: Batch): int
    requires b.checkpoint.Some?
  {
    var at := if b.checkpoint.value.updatedAt == ZERO_TIME then b.at else b.checkpoint.value.updatedAt;
    if at == ZERO_TIME then 0 else UnixMilli(at)
  }

  lemma SavingWrites(t: Tables, b: Batch)
    requires SaveCheckpoint(t, b).Ok?
    ensures var saved := SaveCheckpoint(t, b).value.checkpoints;
            && (b.checkpoint.None? ==> saved == t.checkpoints)
            && (b.checkpoint.Some? ==>
                  var k := CheckpointKey(b.sourceId, b.checkpoint.value.key);
                  k in saved && saved[k] == SavedCheckpoint(b.checkpoint.value.value, SavedAt(b)) && saved - {k} == t.checkpoints - {k})
  {}

  lemma FinishSaves(days: Grid, tx: Tx, b: Batch, drops: int)
    requires Regular(days) && b.sourceId in tx.tables.sources && Finish(days, tx, b, drops).Ok?
    ensures Cover(days, tx.tables, b).Ok? && Cover(days, tx.tables, b).value.checkpoints == tx.tables.checkpoints
    ensures SaveCheckpoint(Cover(days, tx.tables, b).value, b).Ok?
    ensures Finish(days, tx, b, drops).value.tables.checkpoints == SaveCheckpoint(Cover(days, tx.tables, b).value, b).value.checkpoints
  {}

  /** The checkpoint is written by the same transaction as the observations, and no other
      checkpoint with it. */
  lemma CheckpointRides(days: Grid, t: Tables, b: Batch)
    requires Regular(days) && Transact(days, t, b).Ok?
    ensures var saved := Transact(days, t, b).value.tables.checkpoints;
            && (b.checkpoint.None? ==> saved == t.checkpoints)
            && (b.checkpoint.Some? ==>
                  var k := CheckpointKey(b.sourceId, b.checkpoint.value.key);
                  k in saved && saved[k] == SavedCheckpoint(b.checkpoint.value.value, SavedAt(b)) && saved - {k} == t.checkpoints - {k})
  {
    var tx := Observe(days, t, b).value;
    ObserveFrame(days, t, b);
    FinishSaves(days, tx, b, DropsOf(t, b.sourceId));
    SavingWrites(Cover(days, tx.tables, b).value, b);
  }
}
