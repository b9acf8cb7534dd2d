/** What retention takes away, said of the single rows. */
module Expiry {
  import opened Wrappers
  import opened Clock
  import opened Calendar
  import opened Ledger

  /** The three horizons as stamps. */
  datatype Marks = Marks(detail: int, minute: int, day: int)

  /** Whole milliseconds, and for minute rows whole minutes, not after the horizons. */
  predicate IsMarks(h: Horizon, m: Marks) {
    && m.detail * 1_000_000 <= h.detail < (m.detail + 1) * 1_000_000
    && m.minute % 60_000 == 0 && m.minute * 1_000_000 <= h.minute < (m.minute + 60_000) * 1_000_000
    && m.day * 1_000_000 <= h.day < (m.day + 1) * 1_000_000
  }

  function MarkOf(m: Marks, res: Resolution): int { if res == Minute then m.minute else m.day }

  predicate Fresh(m: Marks, res: Resolution, bucket: int) { MarkOf(m, res) <= bucket }

  /** Nothing lies below its own horizon. */
  predicate NoneExpired(t: Tables, m: Marks) {
    && (forall i :: 0 <= i < |t.metrics| ==> Fresh(m, t.metrics[i].key.res, t.metrics[i].key.bucket))
    && (forall i :: 0 <= i < |t.coverage| ==> Fresh(m, t.coverage[i].key.res, t.coverage[i].key.bucket))
    && (forall k :: k in t.details ==> m.detail <= t.details[k])
    && (forall k :: k in t.imports ==> m.day <= t.imports[k])
  }

  /** What lay below is gone, and everything else is there, unchanged. */
  ghost predicate OnlyExpired(t: Tables, t': Tables, m: Marks) {
    && (forall row {:trigger multiset(t'.metrics)[row]} ::
          multiset(t'.metrics)[row] == if Fresh(m, row.key.res, row.key.bucket) then multiset(t.metrics)[row] else 0)
    && (forall row {:trigger multiset(t'.coverage)[row]} ::
          multiset(t'.coverage)[row] == if Fresh(m, row.key.res, row.key.bucket) then multiset(t.coverage)[row] else 0)
    && (forall k :: k in t'.details <==> k in t.details && m.detail <= t.details[k])
    && (forall k :: k in t'.imports <==> k in t.imports && m.day <= t.imports[k])
    && (forall k :: k in t'.details ==> t'.details[k] == t.details[k])
    && (forall k :: k in t'.imports ==> t'.imports[k] == t.imports[k])
    && t'.timezone == t.timezone && t'.sources == t.sources && t'.checkpoints == t.checkpoints
  }

  /** The watermark stands at the mark, or where it stood if that is later. */
  predicate Risen(before: Option<int>, after: Option<int>, mark: int) {
    after == Some(if before.Some? && mark < before.value then before.value else mark)
  }

  predicate AllRisen(t: Tables, t': Tables, m: Marks) {
    Risen(t.detailCutoff, t'.detailCutoff, m.detail) && Risen(t.minuteCutoff, t'.minuteCutoff, m.minute) && Risen(t.dayCutoff, t'.dayCutoff, m.day)
  }

  lemma {:induction false} KeepMetricsTakes(rows: seq<MetricRow>, res: Resolution, from: int, row: MetricRow)
    ensures multiset(KeepMetrics(rows, res, from))[row] == if row.key.res == res && row.key.bucket < from then 0 else multiset(rows)[row]
  {
    if rows != [] {
      KeepMetricsTakes(rows[1..], res, from, row);
      assert rows == [rows[0]] + rows[1..];
    }
  }

  lemma {:induction false} KeepCoverageTakes(rows: seq<CoverageRow>, res: Resolution, from: int, row: CoverageRow)
    ensures multiset(KeepCoverage(rows, res, from))[row] == if row.key.res == res && row.key.bucket < from then 0 else multiset(rows)[row]
  {
    if rows != [] {
      KeepCoverageTakes(rows[1..], res, from, row);
      assert rows == [rows[0]] + rows[1..];
    }
  }

  lemma MarksOf(h: Horizon, m: Marks)
    requires IsMarks(h, m)
    ensures m == Marks(UnixMilli(h.detail), UnixMilli(TruncateMinute(h.minute)), UnixMilli(h.day))
  {
    var q := m.minute / 60_000;
    assert m.minute == q * 60_000;
    assert q * 60_000_000_000 <= h.minute < (q + 1) * 60_000_000_000;
    assert h.minute / 60_000_000_000 == q;
    assert TruncateMinute(h.minute) == q * 60_000_000_000;
  }

  lemma MarksExist(h: Horizon) returns (m: Marks)
    ensures IsMarks(h, m)
  {
    m := Marks(UnixMilli(h.detail), UnixMilli(TruncateMinute(h.minute)), UnixMilli(h.day));
    TruncationHolds(h.minute);
    MinuteHasWholeMillis(TruncateMinute(h.minute));
  }

  /** A retention pass by time deletes what lies below its horizons and nothing else. */
  lemma PruneExpires(t: Tables, h: Horizon, m: Marks)
    requires IsMarks(h, m)
    ensures OnlyExpired(t, Prune(t, h), m) && AllRisen(t, Prune(t, h), m)
  {
    var t' := Prune(t, h);
    MarksOf(h, m);
    forall row ensures multiset(t'.metrics)[row] == if Fresh(m, row.key.res, row.key.bucket) then multiset(t.metrics)[row] else 0 {
      KeepMetricsTakes(t.metrics, Minute, m.minute, row);
      KeepMetricsTakes(KeepMetrics(t.metrics, Minute, m.minute), Day, m.day, row);
    }
    forall row ensures multiset(t'.coverage)[row] == if Fresh(m, row.key.res, row.key.bucket) then multiset(t.coverage)[row] else 0 {
      KeepCoverageTakes(t.coverage, Minute, m.minute, row);
      KeepCoverageTakes(KeepCoverage(t.coverage, Minute, m.minute), Day, m.day, row);
    }
  }

  lemma OnlyExpiredLeavesNone(t: Tables, t': Tables, m: Marks)
    requires OnlyExpired(t, t', m)
    ensures NoneExpired(t', m)
  {
    forall i | 0 <= i < |t'.metrics| ensures Fresh(m, t'.metrics[i].key.res, t'.metrics[i].key.bucket) {
      assert t'.metrics[i] in multiset(t'.metrics);
    }
    forall i | 0 <= i < |t'.coverage| ensures Fresh(m, t'.coverage[i].key.res, t'.coverage[i].key.bucket) {
      assert t'.coverage[i] in multiset(t'.coverage);
    }
  }

  // ---------- eviction ----------

  /** The least bucket of a resolution that has a row. */
  predicate IsLeast(rows: seq<MetricRow>, res: Resolution, b: int) {
    && (exists i :: 0 <= i < |rows| && rows[i].key.res == res && rows[i].key.bucket == b)
    && forall i :: 0 <= i < |rows| && rows[i].key.res == res ==> b <= rows[i].key.bucket
  }

  predicate NoRow(rows: seq<MetricRow>, res: Resolution) { forall i :: 0 <= i < |rows| ==> rows[i].key.res != res }

  /** Of one resolution the rows of bucket b are gone, and the coverage up to it; no other row is. */
  ghost predicate BucketTaken(t: Tables, t': Tables, res: Resolution, b: int) {
    && (forall row {:trigger multiset(t'.metrics)[row]} ::
          multiset(t'.metrics)[row] == if row.key.res == res && row.key.bucket == b then 0 else multiset(t.metrics)[row])
    && (forall row {:trigger multiset(t'.coverage)[row]} ::
          multiset(t'.coverage)[row] == if row.key.res == res && row.key.bucket <= b then 0 else multiset(t.coverage)[row])
  }

  /** One eviction: the details up to the answer of its query; without one the oldest minute;
      without a minute row the oldest day, with the imports before the next. Its watermark
      rises past what went. */
  ghost predicate Takes(days: Grid, t: Tables, answer: Option<int>, t': Tables) {
    if answer.Some? then
      && (forall k :: k in t'.details <==> k in t.details && answer.value < t.details[k])
      && (forall k :: k in t'.details ==> t'.details[k] == t.details[k])
      && Risen(t.detailCutoff, t'.detailCutoff, answer.value + 1)
      && t' == t.(details := t'.details, detailCutoff := t'.detailCutoff)
    else if !NoRow(t.metrics, Minute) then
      && (forall b :: IsLeast(t.metrics, Minute, b) ==> BucketTaken(t, t', Minute, b) && Risen(t.minuteCutoff, t'.minuteCutoff, b + 60_000))
      && t' == t.(metrics := t'.metrics, coverage := t'.coverage, minuteCutoff := t'.minuteCutoff)
    else if !NoRow(t.metrics, Day) then
      && (forall b :: IsLeast(t.metrics, Day, b) ==>
            var next := UnixMilli(days.after(FromMillis(b)));
            && BucketTaken(t, t', Day, b) && Risen(t.dayCutoff, t'.dayCutoff, next)
            && (forall k :: k in t'.imports <==> k in t.imports && next <= t.imports[k])
            && (forall k :: k in t'.imports ==> t'.imports[k] == t.imports[k]))
      && t' == t.(metrics := t'.metrics, coverage := t'.coverage, imports := t'.imports, dayCutoff := t'.dayCutoff)
    else t' == t
  }

  lemma {:induction false} OldestIsLeast(rows: seq<MetricRow>, res: Resolution)
    ensures OldestBucket(rows, res).None? <==> NoRow(rows, res)
    ensures OldestBucket(rows, res).Some? ==> IsLeast(rows, res, OldestBucket(rows, res).value)
  {
    if rows != [] {
      OldestIsLeast(rows[1..], res);
      if OldestBucket(rows[1..], res).Some? {
        var i :| 0 <= i < |rows[1..]| && rows[1..][i].key.res == res && rows[1..][i].key.bucket == OldestBucket(rows[1..], res).value;
        assert rows[i + 1] == rows[1..][i];
      }
      assert forall i :: 0 < i < |rows| ==> rows[i] == rows[1..][i - 1];
    }
  }

  lemma LeastTaken(t: Tables, t': Tables, res: Resolution, b: int)
    requires IsLeast(t.metrics, res, b)
    requires t'.metrics == KeepMetrics(t.metrics, res, b + 1) && t'.coverage == KeepCoverage(t.coverage, res, b + 1)
    ensures BucketTaken(t, t', res, b)
  {
    forall row ensures multiset(t'.metrics)[row] == if row.key.res == res && row.key.bucket == b then 0 else multiset(t.metrics)[row] {
      KeepMetricsTakes(t.metrics, res, b + 1, row);
      if row in multiset(t.metrics) { assert row in t.metrics; }
    }
    forall row ensures multiset(t'.coverage)[row] == if row.key.res == res && row.key.bucket <= b then 0 else multiset(t.coverage)[row] {
      KeepCoverageTakes(t.coverage, res, b + 1, row);
    }
  }

  lemma LeastUnique(rows: seq<MetricRow>, res: Resolution, b: int, c: int)
    requires IsLeast(rows, res, b) && IsLeast(rows, res, c)
    ensures b == c
  {}

  lemma EvictTakesMinute(days: Grid, t: Tables, b: int)
    requires OldestBucket(t.metrics, Minute) == Some(b)
    ensures Takes(days, t, None, Evict(days, t, None))
  {
    OldestIsLeast(t.metrics, Minute);
    LeastTaken(t, Evict(days, t, None), Minute, b);
    forall c | IsLeast(t.metrics, Minute, c) ensures c == b { LeastUnique(t.metrics, Minute, b, c); }
  }

  lemma EvictTakesDay(days: Grid, t: Tables, b: int)
    requires OldestBucket(t.metrics, Minute) == None && OldestBucket(t.metrics, Day) == Some(b)
    ensures Takes(days, t, None, Evict(days, t, None))
  {
    OldestIsLeast(t.metrics, Minute);
    OldestIsLeast(t.metrics, Day);
    LeastTaken(t, Evict(days, t, None), Day, b);
    forall c | IsLeast(t.metrics, Day, c) ensures c == b { LeastUnique(t.metrics, Day, b, c); }
  }

  lemma EvictTakes(days: Grid, t: Tables, answer: Option<int>)
    ensures Takes(days, t, answer, Evict(days, t, answer))
  {
    var minute, day := OldestBucket(t.metrics, Minute), OldestBucket(t.metrics, Day);
    if answer.None? {
      if minute.Some? {
        EvictTakesMinute(days, t, minute.value);
      } else if day.Some? {
        EvictTakesDay(days, t, day.value);
      } else {
        OldestIsLeast(t.metrics, Minute);
        OldestIsLeast(t.metrics, Day);
      }
    }
  }

  /** Everything in t' is in t, unchanged. */
  ghost predicate PartOf(t: Tables, t': Tables) {
    && multiset(t'.metrics) <= multiset(t.metrics) && multiset(t'.coverage) <= multiset(t.coverage)
    && (forall k :: k in t'.details ==> k in t.details && t'.details[k] == t.details[k])
    && (forall k :: k in t'.imports ==> k in t.imports && t'.imports[k] == t.imports[k])
    && t'.timezone == t.timezone && t'.sources == t.sources && t'.checkpoints == t.checkpoints
  }

  lemma KeptIsPart(t: Tables, t': Tables, res: Resolution, from: int)
    requires t'.metrics == KeepMetrics(t.metrics, res, from) && t'.coverage == KeepCoverage(t.coverage, res, from)
    ensures multiset(t'.metrics) <= multiset(t.metrics) && multiset(t'.coverage) <= multiset(t.coverage)
  {
    forall row ensures multiset(t'.metrics)[row] <= multiset(t.metrics)[row] {
      KeepMetricsTakes(t.metrics, res, from, row);
    }
    forall row ensures multiset(t'.coverage)[row] <= multiset(t.coverage)[row] {
      KeepCoverageTakes(t.coverage, res, from, row);
    }
  }

  lemma EvictIsPart(days: Grid, t: Tables, answer: Option<int>)
    ensures PartOf(t, Evict(days, t, answer))
  {
    var minute, day := OldestBucket(t.metrics, Minute), OldestBucket(t.metrics, Day);
    if answer.None? && minute.Some? {
      KeptIsPart(t, Evict(days, t, answer), Minute, minute.value + 1);
    } else if answer.None? && day.Some? {
      KeptIsPart(t, Evict(days, t, answer), Day, day.value + 1);
    }
  }

  lemma OnlyExpiredIsPart(t: Tables, t': Tables, m: Marks)
    requires OnlyExpired(t, t', m)
    ensures PartOf(t, t')
  {
    forall row ensures multiset(t'.metrics)[row] <= multiset(t.metrics)[row] {}
    forall row ensures multiset(t'.coverage)[row] <= multiset(t.coverage)[row] {}
  }

  lemma PartOfPart(t: Tables, u: Tables, v: Tables)
    requires PartOf(t, u) && PartOf(u, v)
    ensures PartOf(t, v)
  {}

  lemma PartLeavesNone(t: Tables, t': Tables, m: Marks)
    requires PartOf(t, t') && NoneExpired(t, m)
    ensures NoneExpired(t', m)
  {
    forall i | 0 <= i < |t'.metrics| ensures Fresh(m, t'.metrics[i].key.res, t'.metrics[i].key.bucket) {
      assert t'.metrics[i] in multiset(t.metrics);
    }
    forall i | 0 <= i < |t'.coverage| ensures Fresh(m, t'.coverage[i].key.res, t'.coverage[i].key.bucket) {
      assert t'.coverage[i] in multiset(t.coverage);
    }
  }
}
