/** The identifiers a collector mints. */
module Minting {
  import opened Wrappers
  import opened Clock
  import opened Ledger
  import opened SourceId
  import opened Counters
  import opened Compact
  import opened Collector

  // An identifier of a measured interval names the poll that measured it, so deduplication
  // never takes two measurements for one, and a batch enters the ledger with all its bytes.

  // ---------- identifiers name instants ----------

  function KeyedId(n: Naming, source: string, key: string, start: Time, now: Time): string {
    StableId(n, [source, "delta", key, n.stamp(start), n.stamp(now)])
  }

  function RestId(n: Naming, source: string, last: Time, now: Time): string {
    StableId(n, [source, "unattributed", n.stamp(last), n.stamp(now)])
  }

  /** The identifier of an interval that a poll at now measured, or did not attribute. */
  ghost predicate MeasuredAt(n: Naming, source: string, id: string, now: Time) {
    (exists key, start :: id == KeyedId(n, source, key, start, now)) || (exists last :: id == RestId(n, source, last, now))
  }

  /** One of those, or the identifier of a compact form of such intervals. */
  ghost predicate MintedAt(n: Naming, source: string, id: string, now: Time) {
    || MeasuredAt(n, source, id, now)
    || exists ids: seq<string> :: ids != [] && id == StableId(n, [source, "compact"] + ids) && MeasuredAt(n, source, ids[0], now)
  }

  lemma MeasuredOnce(n: Naming, source: string, id: string, now: Time, now': Time)
    requires Injective(n) && MeasuredAt(n, source, id, now) && MeasuredAt(n, source, id, now')
    ensures now == now'
  {
    if key, start :| id == KeyedId(n, source, key, start, now) {
      var a := [source, "delta", key, n.stamp(start), n.stamp(now)];
      if key', start' :| id == KeyedId(n, source, key', start', now') {
        StableIdInjective(n, a, [source, "delta", key', n.stamp(start'), n.stamp(now')]);
        assert a[4] == n.stamp(now');
      } else {
        var last :| id == RestId(n, source, last, now');
        StableIdInjective(n, a, [source, "unattributed", n.stamp(last), n.stamp(now')]);
      }
    } else {
      var last :| id == RestId(n, source, last, now);
      var a := [source, "unattributed", n.stamp(last), n.stamp(now)];
      if last' :| id == RestId(n, source, last', now') {
        StableIdInjective(n, a, [source, "unattributed", n.stamp(last'), n.stamp(now')]);
        assert a[3] == n.stamp(now');
      } else {
        var key, start :| id == KeyedId(n, source, key, start, now');
        StableIdInjective(n, a, [source, "delta", key, n.stamp(start), n.stamp(now')]);
      }
    }
  }

  lemma CompactIsNotMeasured(n: Naming, source: string, ids: seq<string>, now: Time)
    requires Injective(n)
    ensures !MeasuredAt(n, source, StableId(n, [source, "compact"] + ids), now)
  {
    var a := [source, "compact"] + ids;
    var id := StableId(n, a);
    assert a[1] == "compact";
    forall key, start ensures id != KeyedId(n, source, key, start, now) {
      var b := [source, "delta", key, n.stamp(start), n.stamp(now)];
      if id == StableId(n, b) { StableIdInjective(n, a, b); }
    }
    forall last ensures id != RestId(n, source, last, now) {
      var b := [source, "unattributed", n.stamp(last), n.stamp(now)];
      if id == StableId(n, b) { StableIdInjective(n, a, b); }
    }
  }

  /** An identifier names the instant of the poll it was minted at. */
  lemma MintedOnce(n: Naming, source: string, id: string, now: Time, now': Time)
    requires Injective(n) && MintedAt(n, source, id, now) && MintedAt(n, source, id, now')
    ensures now == now'
  {
    if MeasuredAt(n, source, id, now) {
      if !MeasuredAt(n, source, id, now') {
        var ids: seq<string> :| ids != [] && id == StableId(n, [source, "compact"] + ids) && MeasuredAt(n, source, ids[0], now');
        CompactIsNotMeasured(n, source, ids, now);
      }
      MeasuredOnce(n, source, id, now, now');
    } else {
      var ids: seq<string> :| ids != [] && id == StableId(n, [source, "compact"] + ids) && MeasuredAt(n, source, ids[0], now);
      CompactIsNotMeasured(n, source, ids, now');
      var ids': seq<string> :| ids' != [] && id == StableId(n, [source, "compact"] + ids') && MeasuredAt(n, source, ids'[0], now');
      StableIdInjective(n, [source, "compact"] + ids, [source, "compact"] + ids');
      assert ([source, "compact"] + ids)[2] == ids[0] && ([source, "compact"] + ids')[2] == ids'[0];
      MeasuredOnce(n, source, ids[0], now, now');
    }
  }

  // ---------- the identifiers of a batch ----------

  predicate DistinctIds(ds: seq<Delta>) { forall i, j :: 0 <= i < j < |ds| ==> ds[i].id != ds[j].id }

  /** What a poll at now emits: plain intervals that end there, under identifiers minted there. */
  ghost predicate Emitted(n: Naming, source: string, now: Time, d: Delta) {
    d.granularity == "" && d.end == now && MeasuredAt(n, source, d.id, now)
  }

  ghost predicate AllEmitted(n: Naming, source: string, now: Time, ds: seq<Delta>) {
    forall i :: 0 <= i < |ds| ==> Emitted(n, source, now, ds[i])
  }

  /** What a poll at now offers the store, directly or in compact form. */
  ghost predicate AllCoined(n: Naming, source: string, now: Time, ds: seq<Delta>) {
    forall i :: 0 <= i < |ds| ==> ds[i].granularity == "" && ds[i].end == now && MintedAt(n, source, ds[i].id, now)
  }

  lemma {:induction false} DeltasOfKeys(n: Naming, t: Tracked, p: Poll, keys: seq<string>)
    requires forall k :: k in keys ==> k in p.values
    ensures forall d :: d in DeltasOf(n, t, p, keys) ==>
              d.granularity == "" && d.end == p.now && exists k :: k in keys && d.id == DeltaId(n, p, k, d.start)
  {
    if keys != [] {
      DeltasOfKeys(n, t, p, keys[1..]);
      assert keys[0] in keys && forall k :: k in keys[1..] ==> k in keys;
    }
  }

  lemma JoinDistinct(a: seq<Delta>, b: seq<Delta>)
    requires DistinctIds(a) && DistinctIds(b) && forall d, e :: d in a && e in b ==> d.id != e.id
    ensures DistinctIds(a + b)
  {}

  /** Two keys of a poll never share an identifier. */
  lemma {:induction false} DeltasDistinct(n: Naming, t: Tracked, p: Poll, keys: seq<string>)
    requires Injective(n) && (forall k :: k in keys ==> k in p.values) && forall i, j :: 0 <= i < j < |keys| ==> keys[i] != keys[j]
    ensures DistinctIds(DeltasOf(n, t, p, keys))
  {
    if keys != [] {
      var o := OutcomeOf(n, t, p, keys[0]);
      var rest := DeltasOf(n, t, p, keys[1..]);
      DeltasDistinct(n, t, p, keys[1..]);
      if o.Grew? {
        DeltasOfKeys(n, t, p, keys[1..]);
        forall e | e in rest ensures o.delta.id != e.id {
          var k :| k in keys[1..] && e.id == DeltaId(n, p, k, e.start);
          if o.delta.id == e.id { DeltaIdNames(n, p, keys[0], o.delta.start, p, k, e.start); }
        }
        JoinDistinct([o.delta], rest);
      }
    }
  }

  lemma DeltasEmitted(n: Naming, t: Tracked, p: Poll, keys: seq<string>)
    requires forall k :: k in keys ==> k in p.values
    ensures AllEmitted(n, p.source, p.now, DeltasOf(n, t, p, keys))
    ensures forall d :: d in DeltasOf(n, t, p, keys) ==> exists key, start :: d.id == KeyedId(n, p.source, key, start, p.now)
  {
    DeltasOfKeys(n, t, p, keys);
    forall d | d in DeltasOf(n, t, p, keys) ensures exists key, start :: d.id == KeyedId(n, p.source, key, start, p.now) {
      var k :| k in keys && d.id == DeltaId(n, p, k, d.start);
      assert d.id == KeyedId(n, p.source, k, d.start, p.now);
    }
  }

  lemma RestEmitted(n: Naming, t: Tracked, p: Poll, up: Count, down: Count)
    ensures Emitted(n, p.source, p.now, Unassigned(n, t, p, up, down))
  {
    assert Unassigned(n, t, p, up, down).id == RestId(n, p.source, t.last, p.now);
  }

  lemma RestDiffers(n: Naming, source: string, last: Time, key: string, start: Time, now: Time)
    requires Injective(n)
    ensures RestId(n, source, last, now) != KeyedId(n, source, key, start, now)
  {
    var a := [source, "unattributed", n.stamp(last), n.stamp(now)];
    var b := [source, "delta", key, n.stamp(start), n.stamp(now)];
    if StableId(n, a) == StableId(n, b) { StableIdInjective(n, a, b); }
  }

  lemma ReconciledEmitted(n: Naming, t: Tracked, p: Poll, keys: seq<string>, up: Count, down: Count)
    requires Injective(n) && (forall k :: k in keys ==> k in p.values) && forall i, j :: 0 <= i < j < |keys| ==> keys[i] != keys[j]
    requires forall d :: d in DeltasOf(n, t, p, keys) ==> 0 <= d.up && 0 <= d.down
    ensures var ds := Reconciled(n, t, p, DeltasOf(n, t, p, keys), up, down);
            AllEmitted(n, p.source, p.now, ds) && DistinctIds(ds)
  {
    var ds := DeltasOf(n, t, p, keys);
    DeltasDistinct(n, t, p, keys);
    DeltasEmitted(n, t, p, keys);
    RestEmitted(n, t, p, up, down);
    if Fits(ds, up, down) {
      FitsSums(ds, up, down);
      var restUp, restDown := up - SumBytes(ds, Upload), down - SumBytes(ds, Download);
      var rest := Unassigned(n, t, p, restUp, restDown);
      RestEmitted(n, t, p, restUp, restDown);
      forall d | d in ds ensures d.id != rest.id {
        var key, start :| d.id == KeyedId(n, p.source, key, start, p.now);
        RestDiffers(n, p.source, t.last, key, start, p.now);
      }
      JoinDistinct(ds, [rest]);
    }
  }

  lemma WatchedEmitted(n: Naming, t: Tracked, p: Poll, keys: seq<string>, before: Option<Totals>, now: Option<Totals>)
    requires Injective(n) && (forall k :: k in keys ==> k in p.values) && forall i, j :: 0 <= i < j < |keys| ==> keys[i] != keys[j]
    ensures var ds := WatchedOf(n, t, p, keys, before, now).deltas; AllEmitted(n, p.source, p.now, ds) && DistinctIds(ds)
  {
    var ds := WatchedOf(n, t, p, keys, before, now).deltas;
    if !Continuous(t, p) || now.None? || before.None? {
      assert ds == DeltasOf(n, t, p, keys);
      DeltasDistinct(n, t, p, keys);
      DeltasEmitted(n, t, p, keys);
    } else if before.value.up <= now.value.up && before.value.down <= now.value.down {
      DeltasInWindow(n, t, p, keys);
      var up, down := now.value.up - before.value.up, now.value.down - before.value.down;
      assert ds == Reconciled(n, t, p, DeltasOf(n, t, p, keys), up, down);
      ReconciledEmitted(n, t, p, keys, up, down);
    } else {
      assert ds == [];
    }
  }

  /** The intervals of a batch end at its poll, under distinct identifiers minted there. */
  lemma BatchEmitted(n: Naming, c: Config, desk: Desk, r: Reading)
    requires Readable(r) && Injective(n)
    ensures var ds := BatchOf(n, c, desk, r).deltas; AllEmitted(n, c.id, r.now, ds) && DistinctIds(ds)
  {
    if r.Counted? {
      var p := PollOf(c, r);
      WatchedEmitted(n, desk.tracked, p, r.keys, desk.total, r.totals);
      DeltasDistinct(n, desk.tracked, p, r.keys);
      DeltasEmitted(n, desk.tracked, p, r.keys);
    }
  }

  /** So does the one interval of the compact form. */
  lemma CompactEmitted(n: Naming, b: Batch, now: Time)
    requires Injective(n) && AllEmitted(n, b.sourceId, now, b.deltas) && Compacted(n, b).Some?
    ensures var ds := Compacted(n, b).value.deltas; AllCoined(n, b.sourceId, now, ds) && DistinctIds(ds)
  {
    CompactKeepsBytes(n, b, Upload);
    if b.deltas != [] {
      var ids := Ids(b.deltas);
      assert ids[0] == b.deltas[0].id;
      assert Compacted(n, b).value.deltas[0].id == StableId(n, [b.sourceId, "compact"] + ids);
    }
  }
}
