/** What the ledger lets in. */
module Admission {
  import opened Wrappers
  import opened Clock
  import opened Calendar
  import opened Ledger
  import Store

  // ---------- at the door ----------

  predicate Alnum(c: char) { ('a' <= c && c <= 'z') || ('A' <= c && c <= 'Z') || ('0' <= c && c <= '9') }

  /** One to 64 characters: a letter or digit, and then also underscores, dots and dashes. */
  predicate GoodName(s: string) {
    0 < |s| <= 64 && Alnum(s[0]) && forall i :: 0 <= i < |s| ==> Alnum(s[i]) || s[i] == '_' || s[i] == '.' || s[i] == '-'
  }

  predicate Nameless(d: Dimensions) { d.ip == "" && d.domain == "" && d.process == "" && d.route == "" && d.principal == "" }

  /** A compact batch has at most four elements and names nobody. */
  predicate GoodCompact(b: Batch) {
    && |b.events| + |b.deltas| <= 4
    && (forall i :: 0 <= i < |b.events| ==> Nameless(b.events[i].dims)) && forall i :: 0 <= i < |b.deltas| ==> Nameless(b.deltas[i].dims)
  }

  predicate GoodBatch(b: Batch) {
    && GoodName(b.sourceId) && 0 < |b.kind| <= 64 && |b.events| + |b.deltas| <= 5000 && b.at != ZERO_TIME
    && (b.compact ==> GoodCompact(b))
  }

  /** Pressure keeps all but compact batches out; a full directory or database all of them. */
  predicate SpaceFor(b: Batch, s: Storage) { (s.pressure ==> b.compact) && !s.overBudget && !s.full }

  lemma GoodBatchIff(b: Batch)
    ensures BatchError(b).None? <==> GoodBatch(b)
  {
    assert Unattributed(b) <==> (forall i :: 0 <= i < |b.events| ==> Nameless(b.events[i].dims)) && forall i :: 0 <= i < |b.deltas| ==> Nameless(b.deltas[i].dims);
    assert SafeName(b.sourceId) <==> GoodName(b.sourceId);
  }

  /** A batch is committed exactly when it is good, its zone is known, there is space for it,
      and its transaction goes through; without space it is refused for that and nothing else. */
  lemma AdmittedIff(zones: map<string, Grid>, t: Tables, b: Batch, s: Storage)
    ensures var zone := if b.timezone == "" then "Asia/Shanghai" else b.timezone;
            && (Ingest(zones, t, b, s).Ok? <==> GoodBatch(b) && zone in zones && SpaceFor(b, s) && Transact(zones[zone], t, b).Ok?)
            && (Ingest(zones, t, b, s).Ok? ==> Ingest(zones, t, b, s) == Transact(zones[zone], t, b))
            && (GoodBatch(b) && zone in zones && !SpaceFor(b, s) ==> Ingest(zones, t, b, s) == Err(StorageLimit))
            && (Store.Fills(zones, b, s) <==> GoodBatch(b) && zone in zones && s.full && !s.overBudget && (s.pressure ==> b.compact))
  {
    GoodBatchIff(b);
  }

  // ---------- against what is recorded ----------

  /** The zone is the recorded one; a known source keeps kind, scope and any recorded
      fingerprint; a new one finds fewer than 128; what the batch says of its source agrees. */
  predicate Agrees(t: Tables, b: Batch) {
    && (t.timezone.Some? ==> t.timezone.value == if b.timezone == "" then "Asia/Shanghai" else b.timezone)
    && (b.source.Some? ==> b.source.value.id == b.sourceId && b.source.value.kind == b.kind && b.source.value.scope == b.scope)
    && (b.sourceId in t.sources ==>
          var known := t.sources[b.sourceId];
          && known.kind == b.kind && known.scope == b.scope
          && (known.identity != "" ==> known.identity == if b.source.Some? then b.source.value.fingerprint else ""))
    && (b.sourceId !in t.sources ==> |t.sources| < 128)
  }

  /** Binding a batch succeeds exactly then. */
  lemma BoundIff(t: Tables, b: Batch)
    ensures Bind(t, b).Ok? <==> Agrees(t, b)
  {}

  function Fingerprint(b: Batch): string { if b.source.Some? then b.source.value.fingerprint else "" }

  /** And it records what was not recorded yet: the zone, a new source, the first fingerprint. */
  lemma BoundRecords(t: Tables, b: Batch)
    requires Bind(t, b).Ok?
    ensures Bind(t, b).value ==
            t.(timezone := Some(if b.timezone == "" then "Asia/Shanghai" else b.timezone),
               sources := t.sources[b.sourceId :=
                 if b.sourceId !in t.sources then Source(b.kind, b.scope, Fingerprint(b), 0, false, 0, None)
                 else if t.sources[b.sourceId].identity == "" then t.sources[b.sourceId].(identity := Fingerprint(b))
                 else t.sources[b.sourceId]])
  {}

  // ---------- inside ----------

  predicate GoodText(s: string) { |s| <= 2048 && forall i :: 0 <= i < |s| ==> s[i] != '\0' }

  predicate GoodDims(d: Dimensions) { GoodText(d.ip) && GoodText(d.domain) && GoodText(d.process) && GoodText(d.route) && GoodText(d.principal) }

  predicate GoodEvent(e: Event) { 0 < |e.id| <= 512 && e.at != ZERO_TIME && 0 <= e.count && GoodDims(e.dims) }

  /** An interval of at most 32 days, or one that claims to be a day. */
  predicate GoodDelta(d: Delta) {
    && 0 < |d.id| <= 512 && d.start != ZERO_TIME && d.start < d.end <= d.start + 32 * 24 * 3600 * 1_000_000_000
    && 0 <= d.up && 0 <= d.down && GoodDims(d.dims)
    && (d.granularity == "" || d.granularity == "interval" || d.granularity == "day")
  }

  /** A day must be one of the recorded zone, from its midnight to the next. */
  predicate GoodDay(days: Grid, d: Delta) { d.granularity == "day" ==> days.floor(d.start) == d.start && d.end == days.after(d.start) }

  predicate GoodCheckpoint(b: Batch) {
    b.checkpoint.Some? ==> var c := b.checkpoint.value; 0 < |c.key| <= 128 && |c.value| <= 1024 * 1024 && c.validJson
  }

  lemma GoodEventIff(e: Event)
    ensures ValidEvent(e) <==> GoodEvent(e)
  {}

  lemma GoodDeltaIff(d: Delta)
    ensures ValidDelta(d) && d.granularity in {"", "interval", "day"} <==> GoodDelta(d)
  {}

  lemma {:induction false} EventsAdmitted(days: Grid, tx: Tx, source: string, es: seq<Event>)
    requires AddEvents(days, tx, source, es).Ok?
    ensures forall i :: 0 <= i < |es| ==> GoodEvent(es[i])
    decreases |es|
  {
    if es != [] {
      GoodEventIff(es[0]);
      EventsAdmitted(days, AddEvent(days, tx, source, es[0]).value, source, es[1..]);
      assert forall i :: 0 < i < |es| ==> es[i] == es[1..][i - 1];
    }
  }

  lemma {:induction false} DeltasAdmitted(days: Grid, tx: Tx, source: string, ds: seq<Delta>)
    requires source in tx.tables.sources && AddDeltas(days, tx, source, ds).Ok?
    ensures forall i :: 0 <= i < |ds| ==> GoodDelta(ds[i]) && GoodDay(days, ds[i])
    decreases |ds|
  {
    if ds != [] {
      GoodDeltaIff(ds[0]);
      DeltasAdmitted(days, AddDelta(days, tx, source, ds[0]).value, source, ds[1..]);
      assert forall i :: 0 < i < |ds| ==> ds[i] == ds[1..][i - 1];
    }
  }

  /** Everything in a committed batch is good, element by element. */
  lemma CommittedIsGood(days: Grid, t: Tables, b: Batch)
    requires Transact(days, t, b).Ok?
    ensures (forall i :: 0 <= i < |b.events| ==> GoodEvent(b.events[i])) && forall i :: 0 <= i < |b.deltas| ==> GoodDelta(b.deltas[i]) && GoodDay(days, b.deltas[i])
    ensures GoodCheckpoint(b)
  {
    var start := Tx(Bind(t, b).value, 0, []);
    EventsAdmitted(days, start, b.sourceId, b.events);
    DeltasAdmitted(days, AddEvents(days, start, b.sourceId, b.events).value, b.sourceId, b.deltas);
  }
}
