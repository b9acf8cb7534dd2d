/** Reading reports off the rollups. */
module Reports {
  import opened Wrappers
  import opened Clock
  import opened Calendar
  import opened Ledger
  import opened History
  import opened Rollup
  import opened Ranking

  datatype GroupBy = BySource | ByDomain | ByProcess | ByRoute | ByIp | ByPrincipal

  datatype ReportQuery = ReportQuery(from: Time, to: Time, source: string, groupBy: GroupBy, filter: Dimensions, limit: int)

  function GroupValue(group: GroupBy, source: string, d: Dimensions): string {
    match group
    case BySource => source
    case ByDomain => d.domain
    case ByProcess => d.process
    case ByRoute => d.route
    case ByIp => d.ip
    case ByPrincipal => d.principal
  }

  /** An empty filter field selects everything; the domain filter is normalized as stored hosts are. */
  predicate Selects(filter: Dimensions, d: Dimensions) {
    && (NormalizeHost(filter.domain) == "" || NormalizeHost(filter.domain) == d.domain)
    && (filter.process == "" || filter.process == d.process) && (filter.route == "" || filter.route == d.route)
    && (filter.ip == "" || filter.ip == d.ip) && (filter.principal == "" || filter.principal == d.principal)
  }

  // ---------- resolution and range ----------

  /** Minute rows answer unless the source has imported days or retention has passed the start. */
  function ResolutionFor(t: Tables, q: ReportQuery, source: string): Resolution {
    if (source in t.sources && t.sources[source].coarseDay) || UnixMilli(q.from) < Cut(t.minuteCutoff) then Day else Minute
  }

  function RangeStart(g: Grid, q: ReportQuery): Time { g.floor(q.from) }

  function RangeEnd(g: Grid, q: ReportQuery): Time {
    if g.floor(q.to) == q.to then q.to else g.after(g.floor(q.to))
  }

  /** The question one source's part of the report asks, for one summed column. */
  function QuestionFor(days: Grid, t: Tables, q: ReportQuery, source: string, c: Column): Filter {
    var res := ResolutionFor(t, q, source);
    var g := GridOf(days, res);
    Filter((s, d) => s == source && Selects(q.filter, d), res, RangeStart(g, q), RangeEnd(g, q), c)
  }

  function GroupFilter(f: Filter, group: GroupBy, v: string): Filter {
    f.(keep := (s, d) => f.keep(s, d) && GroupValue(group, s, d) == v)
  }

  // ---------- grouping ----------

  /** The distinct group values among the matching rows. */
  function GroupKeys(rows: seq<MetricRow>, f: Filter, group: GroupBy): seq<string> {
    if rows == [] then []
    else
      var rest := GroupKeys(rows[1..], f, group);
      var v := GroupValue(group, rows[0].key.source, rows[0].key.dims);
      if Matches(f, rows[0].key) && v !in rest then [v] + rest else rest
  }

  function ActiveBuckets(rows: seq<MetricRow>, f: Filter): set<int> {
    if rows == [] then {}
    else
      (if Matches(f, rows[0].key) && (rows[0].amount.up > 0 || rows[0].amount.down > 0) then {rows[0].key.bucket} else {})
      + ActiveBuckets(rows[1..], f)
  }

  function FirstOf(rows: seq<MetricRow>, f: Filter): Option<int> {
    if rows == [] then None
    else
      var rest := FirstOf(rows[1..], f);
      if !Matches(f, rows[0].key) then rest
      else if rest.None? then Some(rows[0].first) else Some(Min(rows[0].first, rest.value))
  }

  function LastOf(rows: seq<MetricRow>, f: Filter): Option<int> {
    if rows == [] then None
    else
      var rest := LastOf(rows[1..], f);
      if !Matches(f, rows[0].key) then rest
      else if rest.None? then Some(rows[0].last) else Some(Max(rows[0].last, rest.value))
  }

  function GroupRow(rows: seq<MetricRow>, f: Filter, group: GroupBy, source: string, row: Source, v: string): ReportRow {
    var g := GroupFilter(f, group, v);
    ReportRow(source, row.kind, row.scope, v,
              SumRows(rows, g.(column := Up)), SumRows(rows, g.(column := Down)), SumRows(rows, g.(column := Events)),
              if f.res.Minute? then |ActiveBuckets(rows, g)| else 0,
              FromMillis(Cut(FirstOf(rows, g))), FromMillis(Cut(LastOf(rows, g))))
  }

  function GroupRows(rows: seq<MetricRow>, f: Filter, group: GroupBy, source: string, row: Source, keys: seq<string>): seq<ReportRow> {
    if keys == [] then []
    else [GroupRow(rows, f, group, source, row, keys[0])] + GroupRows(rows, f, group, source, row, keys[1..])
  }

  /** Every group of one source, before any limit. */
  function SourceGroups(days: Grid, t: Tables, q: ReportQuery, source: string): seq<ReportRow>
    requires source in t.sources
  {
    var f := QuestionFor(days, t, q, source, Up);
    GroupRows(t.metrics, f, q.groupBy, source, t.sources[source], GroupKeys(t.metrics, f, q.groupBy))
  }

  const UNATTRIBUTED := "(unattributed)"

  function Relabel(r: ReportRow): ReportRow { if r.key == "" then r.(key := UNATTRIBUTED) else r }

  function RelabelAll(rows: seq<ReportRow>): (r: seq<ReportRow>)
    ensures |r| == |rows| && forall i :: 0 <= i < |r| ==> r[i] == Relabel(rows[i])
  {
    Mapped(Relabel, rows)
  }

  /** What the grouped query of one source returns: its first limit + 1 rows, in its own
      order, with the empty group relabelled afterwards. */
  function SourceAnswer(days: Grid, t: Tables, q: ReportQuery, source: string): seq<ReportRow>
    requires source in t.sources && 0 <= q.limit
  {
    RelabelAll(Take(q.limit + 1, SortRows(SourceGroups(days, t, q, source))))
  }

  predicate Asked(q: ReportQuery, source: string) { q.source == "" || q.source == source }

  function Collected(days: Grid, t: Tables, q: ReportQuery, ids: seq<string>): seq<ReportRow>
    requires (forall i :: 0 <= i < |ids| ==> ids[i] in t.sources) && 0 <= q.limit
  {
    if ids == [] then []
    else (if Asked(q, ids[0]) then SourceAnswer(days, t, q, ids[0]) else []) + Collected(days, t, q, ids[1..])
  }

  function EffectiveLimit(q: ReportQuery): int { if q.limit == 0 then 50 else q.limit }

  const MAX_REPORT: int := 3660 * 24 * 60 * 60_000_000_000

  /** The rows of every source asked about, in the order the sources are listed. */
  method Collect(days: Grid, t: Tables, ids: seq<string>, q: ReportQuery) returns (rows: seq<ReportRow>)
    requires (forall i :: 0 <= i < |ids| ==> ids[i] in t.sources) && 0 <= q.limit
    ensures rows == Collected(days, t, q, ids)
  {
    rows := [];
    for k := 0 to |ids|
      invariant rows + Collected(days, t, q, ids[k..]) == Collected(days, t, q, ids)
    {
      CollectedStep(days, t, q, ids[k..], rows);
      assert ids[k..][1..] == ids[k + 1..];
      if Asked(q, ids[k]) {
        var answer := SourceAnswer(days, t, q, ids[k]);
        rows := rows + answer;
      }
    }
    assert ids[|ids|..] == [] && rows + [] == rows;
  }

  lemma CollectedStep(days: Grid, t: Tables, q: ReportQuery, ids: seq<string>, rows: seq<ReportRow>)
    requires (forall i :: 0 <= i < |ids| ==> ids[i] in t.sources) && 0 <= q.limit && ids != []
    ensures rows + Collected(days, t, q, ids) ==
            (if Asked(q, ids[0]) then rows + SourceAnswer(days, t, q, ids[0]) else rows) + Collected(days, t, q, ids[1..])
  {
    Shift(rows, if Asked(q, ids[0]) then SourceAnswer(days, t, q, ids[0]) else [], Collected(days, t, q, ids[1..]));
  }

  lemma Shift(a: seq<ReportRow>, b: seq<ReportRow>, c: seq<ReportRow>)
    ensures a + (b + c) == (a + b) + c && a + [] == a
  {}

  /** The resolutions the sources asked about are answered at. */
  function Resolutions(t: Tables, q: ReportQuery, ids: seq<string>): set<Resolution> {
    if ids == [] then {}
    else (if Asked(q, ids[0]) then {ResolutionFor(t, q, ids[0])} else {}) + Resolutions(t, q, ids[1..])
  }

  datatype Precision = InMinutes | InDays | Mixed

  /** How precise a report says it is: mixed for both resolutions, minutes when nothing answered. */
  predicate Labelled(all: set<Resolution>, precision: Precision) {
    match precision
    case Mixed => Minute in all && Day in all
    case InDays => all == {Day}
    case InMinutes => Day !in all
  }

  method LabelOf(t: Tables, q: ReportQuery, ids: seq<string>) returns (precision: Precision)
    ensures Labelled(Resolutions(t, q, ids), precision)
  {
    var seen: set<Resolution> := {};
    for k := 0 to |ids|
      invariant seen + Resolutions(t, q, ids[k..]) == Resolutions(t, q, ids)
    {
      assert ids[k..][0] == ids[k] && ids[k..][1..] == ids[k + 1..];
      if Asked(q, ids[k]) {
        seen := seen + {ResolutionFor(t, q, ids[k])};
      }
    }
    assert ids[|ids|..] == [] && seen == Resolutions(t, q, ids);
    precision := if Minute in seen && Day in seen then Mixed else if Day in seen then InDays else InMinutes;
    if precision.InDays? {
      assert forall r :: r in seen ==> r == Day;
    }
  }

  /** A filter longer than any stored value is refused once a source is asked. */
  predicate FilterTooLong(f: Dimensions) {
    |NormalizeHost(f.domain)| > 2048 || |f.process| > 2048 || |f.route| > 2048 || |f.ip| > 2048 || |f.principal| > 2048
  }

  predicate AnyAsked(q: ReportQuery, ids: seq<string>) { ids != [] && (Asked(q, ids[0]) || AnyAsked(q, ids[1..])) }

  predicate Refused(q: ReportQuery) {
    || q.from == ZERO_TIME || q.to <= q.from || q.to - q.from > MAX_REPORT
    || EffectiveLimit(q) < 1 || EffectiveLimit(q) > 1000
  }

  /** The report over the sources in the order their identifiers are listed. */
  method Report(days: Grid, t: Tables, ids: seq<string>, q: ReportQuery) returns (r: Option<seq<ReportRow>>, truncated: bool, precision: Precision)
    requires forall i :: 0 <= i < |ids| ==> ids[i] in t.sources
    ensures r.None? <==> Refused(q) || (FilterTooLong(q.filter) && AnyAsked(q, ids))
    ensures r.Some? ==>
              var limit := EffectiveLimit(q);
              var all := Collected(days, t, q.(limit := limit), ids);
              && r.value == Take(limit, SortRows(all)) && (truncated <==> |all| > limit)
              && Labelled(Resolutions(t, q, ids), precision)
  {
    truncated := false;
    precision := InMinutes;
    if q.from == ZERO_TIME || q.to <= q.from || q.to - q.from > MAX_REPORT {
      return None, false, InMinutes;
    }
    var limit := if q.limit == 0 then 50 else q.limit;
    if limit < 1 || limit > 1000 {
      return None, false, InMinutes;
    }
    if FilterTooLong(q.filter) && AnyAsked(q, ids) {
      return None, false, InMinutes;
    }
    var rows := Collect(days, t, ids, q.(limit := limit));
    SortSorts(rows);
    var sorted := SortRows(rows);
    if |sorted| > limit {
      sorted := sorted[..limit];
      truncated := true;
    }
    precision := LabelOf(t, q, ids);
    r := Some(sorted);
  }

  // ---------- what a group row means ----------

  ghost predicate CutoffWhole(t: Tables) {
    t.minuteCutoff.Some? ==> IsBoundary(Minutes(), t.minuteCutoff.value * 1_000_000)
  }

  lemma PruneCutoffWhole(t: Tables, h: Horizon)
    requires CutoffWhole(t)
    ensures CutoffWhole(Prune(t, h))
  {
    MinutesRegular();
    EndIsBoundary(Minutes(), h.minute);
    StampBack(Minutes(), TruncateMinute(h.minute));
  }

  lemma EvictCutoffWhole(days: Grid, t: Tables, oldest: Option<int>, rowDays: Grid)
    requires CutoffWhole(t) && AllInBuckets(rowDays, t.metrics)
    ensures CutoffWhole(Evict(days, t, oldest))
  {
    var minute := OldestBucket(t.metrics, Minute);
    if oldest.None? && minute.Some? {
      MinutesRegular();
      OldestIsBucket(rowDays, t.metrics, Minute);
      EndIsBoundary(Minutes(), minute.value * 1_000_000);
      assert Minutes().after(minute.value * 1_000_000) == (minute.value + 60_000) * 1_000_000;
    }
  }

  /** The minute watermark is always a whole minute. */
  lemma {:induction false} MinuteCutoffWhole(zones: map<string, Grid>, ops: seq<Op>, days: Grid)
    requires AllRegular(zones) && Pinned(zones, Run(zones, ops).tables, days)
    ensures CutoffWhole(Run(zones, ops).tables)
  {
    if ops != [] {
      var before := ops[..|ops| - 1];
      var w := Run(zones, before);
      match ops[|ops| - 1] {
        case IngestOp(b, storage) =>
          if Ingest(zones, w.tables, b, storage).Ok? { TransactFrame(zones[ZoneName(b)], w.tables, b); }
          MinuteCutoffWhole(zones, before, days);
        case PruneOp(h) =>
          MinuteCutoffWhole(zones, before, days);
          PruneCutoffWhole(w.tables, h);
        case EvictOp(tz, oldest) =>
          MinuteCutoffWhole(zones, before, days);
          RunHealthy(zones, before, days);
          if tz in zones { EvictCutoffWhole(zones[tz], w.tables, oldest, days); }
      }
    }
  }

  lemma {:induction false} OldestIsBucket(days: Grid, rows: seq<MetricRow>, res: Resolution)
    requires AllInBuckets(days, rows) && OldestBucket(rows, res).Some?
    ensures IsBoundary(GridOf(days, res), OldestBucket(rows, res).value * 1_000_000)
  {
    if OldestBucket(rows[1..], res).Some? {
      OldestIsBucket(days, rows[1..], res);
    }
  }

  lemma RangeAligned(days: Grid, t: Tables, q: ReportQuery, source: string, c: Column)
    requires Regular(days) && q.from <= q.to
    ensures Aligned(days, QuestionFor(days, t, q, source, c))
    ensures var f := QuestionFor(days, t, q, source, c); f.lo <= q.from && q.to <= f.hi
  {
    MinutesRegular();
    RangeOnGrid(GridOf(days, ResolutionFor(t, q, source)), q);
  }

  lemma RangeOnGrid(g: Grid, q: ReportQuery)
    requires Regular(g) && q.from <= q.to
    ensures IsBoundary(g, RangeStart(g, q)) && IsBoundary(g, RangeEnd(g, q))
    ensures RangeStart(g, q) <= q.from && q.to <= RangeEnd(g, q)
  {
    EndIsBoundary(g, q.from);
    EndIsBoundary(g, q.to);
    assert g.floor(q.from) <= q.from && q.to < g.after(g.floor(q.to));
  }

  /** A row answered at minute resolution is exactly what the accepted observations put
      into its range, as if nothing had ever been pruned or evicted: the choice of the
      resolution alone guarantees it. */
  lemma MinuteReportIsExact(zones: map<string, Grid>, ops: seq<Op>, days: Grid, q: ReportQuery, source: string, v: string)
    requires AllRegular(zones) && Regular(days) && Pinned(zones, Run(zones, ops).tables, days) && q.from <= q.to
    requires var t := Run(zones, ops).tables; source in t.sources && ResolutionFor(t, q, source).Minute?
    ensures var t := Run(zones, ops).tables;
            var h := Run(zones, ops).history;
            var f := QuestionFor(days, t, q, source, Up);
            var row := GroupRow(t.metrics, f, q.groupBy, source, t.sources[source], v);
            var g := GroupFilter(f, q.groupBy, v);
            && row.up == Expected(h, g.(column := Up)) && row.down == Expected(h, g.(column := Down))
            && row.connections == Expected(h, g.(column := Events))
  {
    var t := Run(zones, ops).tables;
    var g := GroupFilter(QuestionFor(days, t, q, source, Up), q.groupBy, v);
    RangeAligned(days, t, q, source, Up);
    MinuteCutoffWhole(zones, ops, days);
    MinutesRegular();
    if t.minuteCutoff.Some? {
      BoundarySeparates(Minutes(), t.minuteCutoff.value * 1_000_000, q.from);
      StampsOrdered(Minutes(), t.minuteCutoff.value * 1_000_000, g.lo);
    }
    LedgerAnswersFromHistory(zones, ops, days, g.(column := Up));
    LedgerAnswersFromHistory(zones, ops, days, g.(column := Down));
    LedgerAnswersFromHistory(zones, ops, days, g.(column := Events));
  }

  // ---------- groups partition the matching rows ----------

  function SumGroups(rows: seq<MetricRow>, f: Filter, group: GroupBy, keys: seq<string>): int {
    if keys == [] then 0 else SumRows(rows, GroupFilter(f, group, keys[0])) + SumGroups(rows, f, group, keys[1..])
  }

  predicate NoTwice(keys: seq<string>) { keys == [] || (keys[0] !in keys[1..] && NoTwice(keys[1..])) }

  /** Adding one row to the table adds it to the one group it belongs to. */
  lemma {:induction false} GroupsStep(rows: seq<MetricRow>, f: Filter, group: GroupBy, keys: seq<string>)
    requires rows != [] && NoTwice(keys)
    ensures SumGroups(rows, f, group, keys) == SumGroups(rows[1..], f, group, keys) +
            if GroupValue(group, rows[0].key.source, rows[0].key.dims) in keys then Seen(rows[0], f) else 0
  {
    if keys != [] {
      GroupsStep(rows, f, group, keys[1..]);
      var v := GroupValue(group, rows[0].key.source, rows[0].key.dims);
      assert Seen(rows[0], GroupFilter(f, group, keys[0])) == if v == keys[0] then Seen(rows[0], f) else 0;
    }
  }

  /** A value that matches no row contributes nothing. */
  lemma {:induction false} AbsentGroup(rows: seq<MetricRow>, f: Filter, group: GroupBy, v: string)
    requires v !in GroupKeys(rows, f, group)
    ensures SumRows(rows, GroupFilter(f, group, v)) == 0
  {
    if rows != [] {
      AbsentGroup(rows[1..], f, group, v);
    }
  }

  /** The groups of a report share out the matching rows: none is lost, none counted twice. */
  lemma {:induction false} GroupsPartition(rows: seq<MetricRow>, f: Filter, group: GroupBy)
    ensures NoTwice(GroupKeys(rows, f, group))
    ensures SumGroups(rows, f, group, GroupKeys(rows, f, group)) == SumRows(rows, f)
  {
    if rows != [] {
      var rest := GroupKeys(rows[1..], f, group);
      var keys := GroupKeys(rows, f, group);
      GroupsPartition(rows[1..], f, group);
      if keys != rest {
        assert keys[1..] == rest;
        AbsentGroup(rows[1..], f, group, keys[0]);
      }
      GroupsStep(rows, f, group, keys);
    }
  }
}
