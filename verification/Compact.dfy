/** The compact fallback: one delta that carries the bytes of many. */
module Compact {
  import opened Wrappers
  import opened Clock
  import opened Ledger
  import opened SourceId
  import opened Counters

  predicate CountsBytes(kind: string) {
    kind in {"mihomo", "interface", "host-interface", "stats", "xray-stats", "v2ray-stats"}
  }

  predicate Plain(d: Delta) { d.granularity in {"", "interval"} && 0 <= d.up && 0 <= d.down }

  /** Whether the deltas can be added to running sums without leaving 64 bits. */
  predicate Summable(ds: seq<Delta>, up: Count, down: Count) {
    ds == [] || (Plain(ds[0]) && ds[0].up <= MAX_INT64 - up && ds[0].down <= MAX_INT64 - down
                 && Summable(ds[1..], up + ds[0].up, down + ds[0].down))
  }

  function FirstStart(ds: seq<Delta>, start: Time): Time {
    if ds == [] then start else FirstStart(ds[1..], if ds[0].start < start then ds[0].start else start)
  }

  function LastEnd(ds: seq<Delta>, end: Time): Time {
    if ds == [] then end else LastEnd(ds[1..], if ds[0].end > end then ds[0].end else end)
  }

  function Ids(ds: seq<Delta>): seq<string> {
    if ds == [] then [] else [ds[0].id] + Ids(ds[1..])
  }

  function CompactId(n: Naming, source: string, ds: seq<Delta>): string {
    StableId(n, [source, "compact"] + Ids(ds))
  }

  function Hull(n: Naming, source: string, ds: seq<Delta>): Delta
    requires ds != [] && Summable(ds, 0, 0)
  {
    SummableIff(ds, 0, 0);
    Delta(CompactId(n, source, ds), "", FirstStart(ds, ds[0].start), LastEnd(ds, ds[0].end),
          SumBytes(ds, Upload), SumBytes(ds, Download), NO_ATTRIBUTION)
  }

  /** The compact form of a batch, when it has one. */
  function Compacted(n: Naming, b: Batch): Option<Batch> {
    if !CountsBytes(b.kind) then None
    else if b.deltas == [] then Some(b.(compact := true, events := [], deltas := []))
    else if !Summable(b.deltas, 0, 0) then None
    else
      var d := Hull(n, b.sourceId, b.deltas);
      if d.start >= d.end then None else Some(b.(compact := true, events := [], deltas := [d]))
  }

  method CompactBatch(n: Naming, b: Batch) returns (r: Option<Batch>)
    ensures r == Compacted(n, b)
  {
    if !CountsBytes(b.kind) {
      return None;
    }
    if b.deltas == [] {
      return Some(b.(compact := true, events := [], deltas := []));
    }
    var up: Count, down: Count := 0, 0;
    var start, end := b.deltas[0].start, b.deltas[0].end;
    var ids := [b.sourceId, "compact"];
    for i := 0 to |b.deltas|
      invariant Summable(b.deltas, 0, 0) <==> Summable(b.deltas[i..], up, down)
      invariant up + SumBytes(b.deltas[i..], Upload) == SumBytes(b.deltas, Upload)
      invariant down + SumBytes(b.deltas[i..], Download) == SumBytes(b.deltas, Download)
      invariant FirstStart(b.deltas[i..], start) == FirstStart(b.deltas, b.deltas[0].start)
      invariant LastEnd(b.deltas[i..], end) == LastEnd(b.deltas, b.deltas[0].end)
      invariant ids + Ids(b.deltas[i..]) == [b.sourceId, "compact"] + Ids(b.deltas)
    {
      var d := b.deltas[i];
      assert b.deltas[i..][0] == d && b.deltas[i..][1..] == b.deltas[i + 1..];
      if !Plain(d) || d.up > MAX_INT64 - up || d.down > MAX_INT64 - down {
        return None;
      }
      up, down := up + d.up, down + d.down;
      if d.start < start {
        start := d.start;
      }
      if d.end > end {
        end := d.end;
      }
      ids := ids + [d.id];
    }
    assert b.deltas[|b.deltas|..] == [] && ids + [] == ids;
    if end <= start {
      return None;
    }
    r := Some(b.(compact := true, events := [], deltas := [Delta(StableId(n, ids), "", start, end, up, down, NO_ATTRIBUTION)]));
  }

  // ---------- what the compact form keeps ----------

  /** The overflow guards pass exactly when all deltas are plain and the sums fit. */
  lemma {:induction false} SummableIff(ds: seq<Delta>, up: Count, down: Count)
    ensures Summable(ds, up, down) <==>
            && (forall d :: d in ds ==> Plain(d))
            && up + SumBytes(ds, Upload) <= MAX_INT64 && down + SumBytes(ds, Download) <= MAX_INT64
    ensures (forall d :: d in ds ==> Plain(d)) ==> 0 <= SumBytes(ds, Upload) && 0 <= SumBytes(ds, Download)
    decreases |ds|
  {
    if ds != [] {
      assert ds[0] in ds && forall d :: d in ds[1..] ==> d in ds;
      assert forall d :: d in ds ==> d == ds[0] || d in ds[1..];
      if Plain(ds[0]) && ds[0].up <= MAX_INT64 - up && ds[0].down <= MAX_INT64 - down {
        SummableIff(ds[1..], up + ds[0].up, down + ds[0].down);
      } else {
        SummableIff(ds[1..], up, down);
      }
    }
  }

  lemma {:induction false} HullBounds(ds: seq<Delta>, start: Time, end: Time)
    ensures FirstStart(ds, start) <= start && end <= LastEnd(ds, end)
    ensures forall d :: d in ds ==> FirstStart(ds, start) <= d.start && d.end <= LastEnd(ds, end)
    ensures FirstStart(ds, start) == start || exists d :: d in ds && d.start == FirstStart(ds, start)
    ensures LastEnd(ds, end) == end || exists d :: d in ds && d.end == LastEnd(ds, end)
    decreases |ds|
  {
    if ds != [] {
      var s := if ds[0].start < start then ds[0].start else start;
      var e := if ds[0].end > end then ds[0].end else end;
      HullBounds(ds[1..], s, e);
      assert ds[0] in ds && forall d :: d in ds[1..] ==> d in ds;
      assert forall d :: d in ds ==> d == ds[0] || d in ds[1..];
    }
  }

  /** The single compact delta carries exactly the bytes of the originals, spans exactly
      their hull, and passes the checks Ingest makes of compact batches. */
  lemma CompactKeepsBytes(n: Naming, b: Batch, w: Way)
    requires Compacted(n, b).Some?
    ensures var c := Compacted(n, b).value;
            && SumBytes(c.deltas, w) == SumBytes(b.deltas, w)
            && c == b.(compact := true, events := [], deltas := c.deltas) && |c.deltas| <= 1 && Unattributed(c)
            && (BatchError(b.(compact := false)).None? ==> BatchError(c).None?)
            && (b.deltas == [] <==> c.deltas == [])
            && (forall d :: d in b.deltas ==> c.deltas != [] && c.deltas[0].start <= d.start && d.end <= c.deltas[0].end)
            && (b.deltas != [] ==>
                  && c.deltas[0].start < c.deltas[0].end
                  && (exists d :: d in b.deltas && d.start == c.deltas[0].start)
                  && (exists d :: d in b.deltas && d.end == c.deltas[0].end))
  {
    if b.deltas != [] {
      var first := b.deltas[0];
      HullBounds(b.deltas, first.start, first.end);
      assert first in b.deltas;
      var d := Hull(n, b.sourceId, b.deltas);
      assert [d][1..] == [];
    }
  }

  /** A batch of plain, non-empty intervals has a compact form exactly when its kind counts
      bytes and its sums fit. */
  lemma CompactIff(n: Naming, b: Batch)
    requires forall d :: d in b.deltas ==> Plain(d) && d.start < d.end
    ensures Compacted(n, b).Some? <==>
            CountsBytes(b.kind) && SumBytes(b.deltas, Upload) <= MAX_INT64 && SumBytes(b.deltas, Download) <= MAX_INT64
  {
    SummableIff(b.deltas, 0, 0);
    if b.deltas != [] {
      var first := b.deltas[0];
      assert first in b.deltas;
      HullBounds(b.deltas, first.start, first.end);
    }
  }
}
