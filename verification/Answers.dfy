/** What a report says of the accepted observations, column by column. */
module Answers {
  import opened Clock
  import opened Calendar
  import opened Allocation
  import opened Ledger
  import opened History
  import opened Ranking
  import opened Reports
  import opened Filing
  import Listing

  // ---------- the range ----------

  /** The last boundary that is not after the asked start, and the first not before the asked end. */
  ghost predicate StartsAt(g: Grid, from: Time, lo: Time) {
    IsBoundary(g, lo) && lo <= from && forall t {:trigger g.floor(t)} :: IsBoundary(g, t) && t <= from ==> t <= lo
  }

  ghost predicate EndsAt(g: Grid, to: Time, hi: Time) {
    IsBoundary(g, hi) && to <= hi && forall t {:trigger g.floor(t)} :: IsBoundary(g, t) && to <= t ==> hi <= t
  }

  lemma StartUnique(g: Grid, from: Time, lo: Time, lo': Time)
    requires StartsAt(g, from, lo) && StartsAt(g, from, lo')
    ensures lo == lo'
  {
    assert g.floor(lo) == lo && g.floor(lo') == lo';
  }

  lemma EndUnique(g: Grid, to: Time, hi: Time, hi': Time)
    requires EndsAt(g, to, hi) && EndsAt(g, to, hi')
    ensures hi == hi'
  {
    assert g.floor(hi) == hi && g.floor(hi') == hi';
  }

  /** A report widens what is asked to whole buckets and no further. */
  lemma RangeIsLeast(g: Grid, q: ReportQuery)
    requires Regular(g)
    ensures StartsAt(g, q.from, RangeStart(g, q)) && EndsAt(g, q.to, RangeEnd(g, q))
    ensures (IsBoundary(g, q.from) ==> RangeStart(g, q) == q.from) && (IsBoundary(g, q.to) ==> RangeEnd(g, q) == q.to)
  {
    EndIsBoundary(g, q.from);
    EndIsBoundary(g, q.to);
    forall t | IsBoundary(g, t) && t <= q.from ensures t <= RangeStart(g, q) {
      BoundarySeparates(g, t, q.from);
    }
    assert g.floor(q.to) <= q.to < g.after(g.floor(q.to));
    forall t | IsBoundary(g, t) && q.to <= t ensures RangeEnd(g, q) <= t {
      BoundarySeparates(g, t, q.to);
    }
  }

  // ---------- the figures ----------

  /** The filters that are set, each against its own column; the host as stored hosts are written. */
  predicate Chosen(filter: Dimensions, d: Dimensions) {
    && (filter.ip == "" || d.ip == filter.ip) && (filter.process == "" || d.process == filter.process)
    && (filter.route == "" || d.route == filter.route) && (filter.principal == "" || d.principal == filter.principal)
    && (filter.domain == "" || filter.domain == "." || HostFiled(filter.domain, d.domain))
  }

  predicate InGroup(group: GroupBy, v: string, source: string, d: Dimensions) {
    match group
    case BySource => v == source
    case ByIp => v == d.ip
    case ByDomain => v == d.domain
    case ByProcess => v == d.process
    case ByRoute => v == d.route
    case ByPrincipal => v == d.principal
  }

  /** Of a total spread evenly over [start, end), what falls before t, rounded down. */
  function Before(total: int, start: Time, end: Time, t: Time): int {
    if t <= start then 0 else if end <= t then total else total * (t - start) / (end - start)
  }

  /** What an observation puts into [lo, hi) of a column. */
  function Portion(o: Observation, res: Resolution, lo: Time, hi: Time, c: Column): int {
    match o
    case EventSeen(_, _, _, at, count) => if c == Events && lo <= at && at < hi then count else 0
    case IntervalSeen(_, _, _, start, end, up, down) =>
      if c == Events || end <= start then 0
      else var total := if c == Up then up else down; Before(total, start, end, hi) - Before(total, start, end, lo)
    case DayImported(_, _, _, start, _, up, down) =>
      if res == Day && lo <= start && start < hi then (match c case Up => up case Down => down case Events => 0) else 0
  }

  /** What the accepted observations of a source say of one group. */
  function Told(h: seq<Observation>, q: ReportQuery, source: string, v: string, res: Resolution, lo: Time, hi: Time, c: Column): int {
    if h == [] then 0
    else
      var o := h[|h| - 1];
      Told(h[..|h| - 1], q, source, v, res, lo, hi, c) +
      if o.source == source && Chosen(q.filter, o.dims) && InGroup(q.groupBy, v, source, o.dims) then Portion(o, res, lo, hi, c) else 0
  }

  lemma BeforeIsCurve(total: int, start: Time, end: Time, t: Time)
    requires start < end
    ensures Before(total, start, end, t) == Cumulative(total, start, end, Clamp(t, start, end))
  {
    DivUnique(total * (end - start), end - start, total, 0);
    DivUnique(total * 0, end - start, 0, 0);
  }

  lemma PortionIsWithin(o: Observation, f: Filter)
    requires f.lo <= f.hi
    ensures Portion(o, f.res, f.lo, f.hi, f.column) == Within(o, f)
  {
    if o.IntervalSeen? && o.start < o.end {
      var total := if f.column.Up? then o.up else o.down;
      BeforeIsCurve(total, o.start, o.end, f.lo);
      BeforeIsCurve(total, o.start, o.end, f.hi);
    }
  }

  lemma ChosenIsSelected(filter: Dimensions, d: Dimensions)
    ensures Selects(filter, d) <==> Chosen(filter, d)
  {
    var raw := Dimensions("", filter.domain, "", "", "");
    NormalizeFiles(raw);
    var host := NormalizeHost(filter.domain);
    assert host == "" <==> filter.domain == "" || filter.domain == "." by {
      assert |host| == if |filter.domain| > 0 && filter.domain[|filter.domain| - 1] == '.' then |filter.domain| - 1 else |filter.domain|;
    }
    if HostFiled(filter.domain, d.domain) {
      FiledUnderOne(raw, Dimensions("", host, "", "", ""), Dimensions("", d.domain, "", "", ""));
    }
  }

  /** The filter keeps exactly the group. */
  ghost predicate KeepsGroup(f: Filter, q: ReportQuery, source: string, v: string) {
    forall s, d :: f.keep(s, d) <==> s == source && Chosen(q.filter, d) && InGroup(q.groupBy, v, source, d)
  }

  lemma {:induction false} ToldIsExpected(h: seq<Observation>, q: ReportQuery, source: string, v: string, f: Filter)
    requires KeepsGroup(f, q, source, v) && f.lo <= f.hi
    ensures Told(h, q, source, v, f.res, f.lo, f.hi, f.column) == Expected(h, f)
  {
    if h != [] {
      ToldIsExpected(h[..|h| - 1], q, source, v, f);
      PortionIsWithin(h[|h| - 1], f);
    }
  }

  lemma QuestionKeepsGroup(days: Grid, t: Tables, q: ReportQuery, source: string, v: string, c: Column)
    ensures KeepsGroup(GroupFilter(QuestionFor(days, t, q, source, c), q.groupBy, v), q, source, v)
  {
    forall s, d ensures GroupFilter(QuestionFor(days, t, q, source, c), q.groupBy, v).keep(s, d) <==>
                        s == source && Chosen(q.filter, d) && InGroup(q.groupBy, v, source, d)
    {
      ChosenIsSelected(q.filter, d);
      assert InGroup(q.groupBy, v, s, d) <==> GroupValue(q.groupBy, s, d) == v;
      var f := QuestionFor(days, t, q, source, c);
      assert f.keep(s, d) <==> s == source && Selects(q.filter, d);
    }
  }

  /** One source's row for one group, with the figures the observations give. */
  ghost predicate Tells(row: ReportRow, t: Tables, h: seq<Observation>, q: ReportQuery, source: string, v: string, res: Resolution, lo: Time, hi: Time) {
    && source in t.sources && row.source == source && row.kind == t.sources[source].kind && row.scope == t.sources[source].scope
    && row.up == Told(h, q, source, v, res, lo, hi, Up) && row.down == Told(h, q, source, v, res, lo, hi, Down)
    && row.connections == Told(h, q, source, v, res, lo, hi, Events)
  }

  /** Minute rows answer: nothing was imported by the day, and retention has not passed the start. */
  predicate ByMinutes(t: Tables, q: ReportQuery, source: string)
    requires source in t.sources
  {
    !t.sources[source].coarseDay && Mark(t.minuteCutoff) * 1_000_000 <= q.from
  }

  lemma MinutesAsked(t: Tables, q: ReportQuery, source: string)
    requires source in t.sources
    ensures ResolutionFor(t, q, source) == if ByMinutes(t, q, source) then Minute else Day
  {}

  /** At minute resolution a group's row gives exactly what the accepted observations of the
      source, of the group and within the filters put into the asked range, widened to whole minutes. */
  lemma MinuteRowTells(zones: map<string, Grid>, ops: seq<Op>, days: Grid, q: ReportQuery, source: string, v: string, lo: Time, hi: Time)
    requires AllRegular(zones) && Regular(days) && Pinned(zones, Run(zones, ops).tables, days) && q.from <= q.to
    requires source in Run(zones, ops).tables.sources && ByMinutes(Run(zones, ops).tables, q, source)
    requires StartsAt(Minutes(), q.from, lo) && EndsAt(Minutes(), q.to, hi)
    ensures var t := Run(zones, ops).tables;
            Tells(GroupRow(t.metrics, QuestionFor(days, t, q, source, Up), q.groupBy, source, t.sources[source], v),
                  t, Run(zones, ops).history, q, source, v, Minute, lo, hi)
  {
    var t, h := Run(zones, ops).tables, Run(zones, ops).history;
    var g := GroupFilter(QuestionFor(days, t, q, source, Up), q.groupBy, v);
    MinutesRegular();
    MinutesAsked(t, q, source);
    RangeIsLeast(Minutes(), q);
    StartUnique(Minutes(), q.from, lo, RangeStart(Minutes(), q));
    EndUnique(Minutes(), q.to, hi, RangeEnd(Minutes(), q));
    QuestionKeepsGroup(days, t, q, source, v, Up);
    MinuteReportIsExact(zones, ops, days, q, source, v);
    ToldIsExpected(h, q, source, v, g.(column := Up));
    ToldIsExpected(h, q, source, v, g.(column := Down));
    ToldIsExpected(h, q, source, v, g.(column := Events));
  }

  /** At day resolution the same, for days that retention has not reached. */
  lemma DayRowTells(zones: map<string, Grid>, ops: seq<Op>, days: Grid, q: ReportQuery, source: string, v: string, lo: Time, hi: Time)
    requires AllRegular(zones) && Regular(days) && Pinned(zones, Run(zones, ops).tables, days) && q.from <= q.to
    requires source in Run(zones, ops).tables.sources && !ByMinutes(Run(zones, ops).tables, q, source)
    requires StartsAt(days, q.from, lo) && EndsAt(days, q.to, hi)
    requires Mark(Run(zones, ops).tables.dayCutoff) <= UnixMilli(lo) && 0 < UnixMilli(lo)
    ensures var t := Run(zones, ops).tables;
            Tells(GroupRow(t.metrics, QuestionFor(days, t, q, source, Up), q.groupBy, source, t.sources[source], v),
                  t, Run(zones, ops).history, q, source, v, Day, lo, hi)
  {
    var t, h := Run(zones, ops).tables, Run(zones, ops).history;
    var g := GroupFilter(QuestionFor(days, t, q, source, Up), q.groupBy, v);
    MinutesAsked(t, q, source);
    RangeIsLeast(days, q);
    StartUnique(days, q.from, lo, RangeStart(days, q));
    EndUnique(days, q.to, hi, RangeEnd(days, q));
    QuestionKeepsGroup(days, t, q, source, v, Up);
    RangeAligned(days, t, q, source, Up);
    LedgerAnswersFromHistory(zones, ops, days, g.(column := Up));
    LedgerAnswersFromHistory(zones, ops, days, g.(column := Down));
    LedgerAnswersFromHistory(zones, ops, days, g.(column := Events));
    ToldIsExpected(h, q, source, v, g.(column := Up));
    ToldIsExpected(h, q, source, v, g.(column := Down));
    ToldIsExpected(h, q, source, v, g.(column := Events));
  }

  /** A report is refused when it has no start, its end does not lie after it or lies more than
      3660 days after, when its limit, once defaulted, is not between 1 and 1000, or when a
      filter is longer than any stored text and some source is asked. */
  lemma RefusedIff(q: ReportQuery, ids: seq<string>)
    ensures Refused(q) || (FilterTooLong(q.filter) && AnyAsked(q, ids)) <==>
            || q.from == ZERO_TIME || q.to <= q.from || q.from + 3660 * 24 * 3600 * 1_000_000_000 < q.to
            || !(q.limit == 0 || 1 <= q.limit <= 1000)
            || ((exists i :: 0 <= i < |ids| && (q.source == "" || q.source == ids[i])) && TooLong(q.filter))
  {
    AnyAskedIff(q, ids);
    LowerAt(if |q.filter.domain| > 0 && q.filter.domain[|q.filter.domain| - 1] == '.' then q.filter.domain[..|q.filter.domain| - 1] else q.filter.domain);
  }

  lemma DefaultLimit(q: ReportQuery)
    ensures EffectiveLimit(q) == if q.limit == 0 then 50 else q.limit
  {}

  /** A resolution answers exactly when some source asked about is answered at it. */
  lemma {:induction false} ResolutionsAre(t: Tables, q: ReportQuery, ids: seq<string>, res: Resolution)
    requires forall i :: 0 <= i < |ids| ==> ids[i] in t.sources
    ensures res in Reports.Resolutions(t, q, ids) <==>
            exists i :: 0 <= i < |ids| && (q.source == "" || q.source == ids[i]) && res == if ByMinutes(t, q, ids[i]) then Minute else Day
  {
    if ids != [] {
      ResolutionsAre(t, q, ids[1..], res);
      MinutesAsked(t, q, ids[0]);
      assert forall i :: 0 < i < |ids| ==> ids[i] == ids[1..][i - 1];
    }
  }

  /** A trailing dot of the host does not count. */
  predicate TooLong(d: Dimensions) {
    || |d.ip| > 2048 || |d.process| > 2048 || |d.route| > 2048 || |d.principal| > 2048
    || (if |d.domain| > 0 && d.domain[|d.domain| - 1] == '.' then |d.domain| - 1 else |d.domain|) > 2048
  }

  lemma {:induction false} AnyAskedIff(q: ReportQuery, ids: seq<string>)
    ensures AnyAsked(q, ids) <==> exists i :: 0 <= i < |ids| && (q.source == "" || q.source == ids[i])
  {
    if ids != [] {
      AnyAskedIff(q, ids[1..]);
      if i :| 0 <= i < |ids[1..]| && (q.source == "" || q.source == ids[1..][i]) { assert ids[i + 1] == ids[1..][i]; }
      if i :| 0 <= i < |ids| && (q.source == "" || q.source == ids[i]) && i > 0 { assert ids[1..][i - 1] == ids[i]; }
    }
  }

  // ---------- the rows of a report ----------

  /** The row of group v, under the name it is shown with. */
  ghost predicate ShowsGroup(r: ReportRow, days: Grid, t: Tables, q: ReportQuery, source: string, v: string)
    requires source in t.sources
  {
    && r.key == (if v == "" then "(unattributed)" else v)
    && r == GroupRow(t.metrics, QuestionFor(days, t, q, source, Up), q.groupBy, source, t.sources[source], v).(key := r.key)
  }

  lemma {:induction false} GroupRowsAre(rows: seq<MetricRow>, f: Filter, group: GroupBy, source: string, row: Source, keys: seq<string>)
    ensures var g := GroupRows(rows, f, group, source, row, keys);
            |g| == |keys| && forall i :: 0 <= i < |keys| ==> g[i] == GroupRow(rows, f, group, source, row, keys[i])
  {
    if keys != [] {
      GroupRowsAre(rows, f, group, source, row, keys[1..]);
    }
  }

  /** Every row of a report is the row of a group of a source that was asked about. */
  lemma {:induction false} RowsShowGroups(days: Grid, t: Tables, q: ReportQuery, ids: seq<string>, r: ReportRow) returns (source: string, v: string)
    requires (forall i :: 0 <= i < |ids| ==> ids[i] in t.sources) && r in Listing.AllGroups(days, t, q, ids)
    ensures source in ids && (q.source == "" || q.source == source) && source in t.sources && ShowsGroup(r, days, t, q, source, v)
  {
    if Asked(q, ids[0]) && r in RelabelAll(SourceGroups(days, t, q, ids[0])) {
      var f := QuestionFor(days, t, q, ids[0], Up);
      var keys := GroupKeys(t.metrics, f, q.groupBy);
      source := ids[0];
      GroupRowsAre(t.metrics, f, q.groupBy, source, t.sources[source], keys);
      var i :| 0 <= i < |keys| && RelabelAll(SourceGroups(days, t, q, source))[i] == r;
      v := keys[i];
    } else {
      source, v := RowsShowGroups(days, t, q, ids[1..], r);
    }
  }

  lemma {:induction false} KeysComplete(rows: seq<MetricRow>, f: Filter, group: GroupBy, i: nat)
    requires i < |rows| && Matches(f, rows[i].key)
    ensures GroupValue(group, rows[i].key.source, rows[i].key.dims) in GroupKeys(rows, f, group)
  {
    if i > 0 {
      KeysComplete(rows[1..], f, group, i - 1);
    }
  }

  lemma {:induction false} GroupShown(days: Grid, t: Tables, q: ReportQuery, ids: seq<string>, source: string, v: string) returns (r: ReportRow)
    requires (forall i :: 0 <= i < |ids| ==> ids[i] in t.sources) && source in ids && (q.source == "" || q.source == source)
    requires v in GroupKeys(t.metrics, QuestionFor(days, t, q, source, Up), q.groupBy)
    ensures r in Listing.AllGroups(days, t, q, ids) && ShowsGroup(r, days, t, q, source, v)
  {
    if ids[0] == source {
      var keys := GroupKeys(t.metrics, QuestionFor(days, t, q, source, Up), q.groupBy);
      GroupRowsAre(t.metrics, QuestionFor(days, t, q, source, Up), q.groupBy, source, t.sources[source], keys);
      var i :| 0 <= i < |keys| && keys[i] == v;
      r := RelabelAll(SourceGroups(days, t, q, source))[i];
    } else {
      r := GroupShown(days, t, q, ids[1..], source, v);
    }
  }

  /** No row of the table in the asked range is left out: its group has its row. */
  lemma EveryRowShown(days: Grid, t: Tables, q: ReportQuery, ids: seq<string>, source: string, v: string, i: nat, lo: Time, hi: Time) returns (r: ReportRow)
    requires Regular(days) && (forall j :: 0 <= j < |ids| ==> ids[j] in t.sources) && source in ids && (q.source == "" || q.source == source)
    requires var res := if ByMinutes(t, q, source) then Minute else Day;
             && StartsAt(GridOf(days, res), q.from, lo) && EndsAt(GridOf(days, res), q.to, hi)
             && i < |t.metrics| && t.metrics[i].key.res == res && UnixMilli(lo) <= t.metrics[i].key.bucket < UnixMilli(hi)
             && t.metrics[i].key.source == source && Chosen(q.filter, t.metrics[i].key.dims) && InGroup(q.groupBy, v, source, t.metrics[i].key.dims)
    ensures r in Listing.AllGroups(days, t, q, ids) && ShowsGroup(r, days, t, q, source, v)
  {
    var f := QuestionFor(days, t, q, source, Up);
    MinutesAsked(t, q, source);
    MinutesRegular();
    var g := GridOf(days, f.res);
    RangeIsLeast(g, q);
    StartUnique(g, q.from, lo, f.lo);
    EndUnique(g, q.to, hi, f.hi);
    ChosenIsSelected(q.filter, t.metrics[i].key.dims);
    assert GroupValue(q.groupBy, source, t.metrics[i].key.dims) == v;
    KeysComplete(t.metrics, f, q.groupBy, i);
    r := GroupShown(days, t, q, ids, source, v);
  }

  /** A row of a report after any run: whose group it is, and that its figures are those of the
      accepted observations over the asked range, widened to whole buckets. */
  lemma ReportTells(zones: map<string, Grid>, ops: seq<Op>, days: Grid, q: ReportQuery, ids: seq<string>, rows: seq<ReportRow>, r: ReportRow)
      returns (source: string, v: string)
    requires AllRegular(zones) && Regular(days) && Pinned(zones, Run(zones, ops).tables, days) && q.from <= q.to
    requires (forall i :: 0 <= i < |ids| ==> ids[i] in Run(zones, ops).tables.sources) && 0 <= q.limit
    requires IsTop(q.limit, rows, Listing.AllGroups(days, Run(zones, ops).tables, q, ids)) && r in rows
    ensures source in ids && (q.source == "" || q.source == source) && source in Run(zones, ops).tables.sources
    ensures r.key == if v == "" then "(unattributed)" else v
    ensures var t, h := Run(zones, ops).tables, Run(zones, ops).history;
            if ByMinutes(t, q, source) then
              forall lo, hi :: StartsAt(Minutes(), q.from, lo) && EndsAt(Minutes(), q.to, hi) ==> Tells(r, t, h, q, source, v, Minute, lo, hi)
            else
              forall lo, hi :: StartsAt(days, q.from, lo) && EndsAt(days, q.to, hi) && Mark(t.dayCutoff) <= UnixMilli(lo) && 0 < UnixMilli(lo) ==>
                Tells(r, t, h, q, source, v, Day, lo, hi)
  {
    var t, h := Run(zones, ops).tables, Run(zones, ops).history;
    assert r in multiset(Listing.AllGroups(days, t, q, ids));
    source, v := RowsShowGroups(days, t, q, ids, r);
    if ByMinutes(t, q, source) {
      forall lo, hi | StartsAt(Minutes(), q.from, lo) && EndsAt(Minutes(), q.to, hi) ensures Tells(r, t, h, q, source, v, Minute, lo, hi) {
        MinuteRowTells(zones, ops, days, q, source, v, lo, hi);
      }
    } else {
      forall lo, hi | StartsAt(days, q.from, lo) && EndsAt(days, q.to, hi) && Mark(t.dayCutoff) <= UnixMilli(lo) && 0 < UnixMilli(lo)
        ensures Tells(r, t, h, q, source, v, Day, lo, hi)
      {
        DayRowTells(zones, ops, days, q, source, v, lo, hi);
      }
    }
  }

  // ---------- activity and stamps ----------

  /** A row of the table that belongs to this group of the report. */
  predicate Belongs(m: MetricRow, q: ReportQuery, source: string, v: string, res: Resolution, lo: Time, hi: Time) {
    && m.key.source == source && m.key.res == res && UnixMilli(lo) <= m.key.bucket && m.key.bucket < UnixMilli(hi)
    && Chosen(q.filter, m.key.dims) && InGroup(q.groupBy, v, source, m.key.dims)
  }

  /** The buckets in which bytes were counted. */
  function BusyBuckets(rows: seq<MetricRow>, q: ReportQuery, source: string, v: string, res: Resolution, lo: Time, hi: Time): set<int> {
    set i | 0 <= i < |rows| && Belongs(rows[i], q, source, v, res, lo, hi) && (0 < rows[i].amount.up || 0 < rows[i].amount.down) :: rows[i].key.bucket
  }

  predicate LeastFirst(rows: seq<MetricRow>, f: Filter, x: int) {
    && (exists i :: 0 <= i < |rows| && Matches(f, rows[i].key) && rows[i].first == x)
    && forall i :: 0 <= i < |rows| && Matches(f, rows[i].key) ==> x <= rows[i].first
  }

  predicate GreatestLast(rows: seq<MetricRow>, f: Filter, x: int) {
    && (exists i :: 0 <= i < |rows| && Matches(f, rows[i].key) && rows[i].last == x)
    && forall i :: 0 <= i < |rows| && Matches(f, rows[i].key) ==> rows[i].last <= x
  }

  predicate AnyMatch(rows: seq<MetricRow>, f: Filter) { exists i :: 0 <= i < |rows| && Matches(f, rows[i].key) }

  lemma AnyMatchMore(rows: seq<MetricRow>, f: Filter)
    requires rows != []
    ensures AnyMatch(rows, f) <==> Matches(f, rows[0].key) || AnyMatch(rows[1..], f)
  {
    if AnyMatch(rows[1..], f) {
      var i :| 0 <= i < |rows[1..]| && Matches(f, rows[1..][i].key);
      assert rows[i + 1] == rows[1..][i];
    }
    if AnyMatch(rows, f) && !Matches(f, rows[0].key) {
      var i :| 0 <= i < |rows| && Matches(f, rows[i].key);
      assert rows[1..][i - 1] == rows[i];
    }
  }

  lemma {:induction false} FirstIsLeast(rows: seq<MetricRow>, f: Filter)
    ensures FirstOf(rows, f).Some? <==> AnyMatch(rows, f)
    ensures FirstOf(rows, f).Some? ==> LeastFirst(rows, f, FirstOf(rows, f).value)
  {
    if rows != [] {
      FirstIsLeast(rows[1..], f);
      AnyMatchMore(rows, f);
      if FirstOf(rows[1..], f).Some? {
        var i :| 0 <= i < |rows[1..]| && Matches(f, rows[1..][i].key) && rows[1..][i].first == FirstOf(rows[1..], f).value;
        assert rows[i + 1] == rows[1..][i];
      }
      assert forall i :: 0 < i < |rows| ==> rows[i] == rows[1..][i - 1];
    }
  }

  lemma {:induction false} LastIsGreatest(rows: seq<MetricRow>, f: Filter)
    ensures LastOf(rows, f).Some? <==> AnyMatch(rows, f)
    ensures LastOf(rows, f).Some? ==> GreatestLast(rows, f, LastOf(rows, f).value)
  {
    if rows != [] {
      LastIsGreatest(rows[1..], f);
      AnyMatchMore(rows, f);
      if LastOf(rows[1..], f).Some? {
        var i :| 0 <= i < |rows[1..]| && Matches(f, rows[1..][i].key) && rows[1..][i].last == LastOf(rows[1..], f).value;
        assert rows[i + 1] == rows[1..][i];
      }
      assert forall i :: 0 < i < |rows| ==> rows[i] == rows[1..][i - 1];
    }
  }

  lemma {:induction false} ActiveIs(rows: seq<MetricRow>, f: Filter)
    ensures ActiveBuckets(rows, f) ==
            set i | 0 <= i < |rows| && Matches(f, rows[i].key) && (0 < rows[i].amount.up || 0 < rows[i].amount.down) :: rows[i].key.bucket
  {
    if rows != [] {
      ActiveIs(rows[1..], f);
      var all := set i | 0 <= i < |rows| && Matches(f, rows[i].key) && (0 < rows[i].amount.up || 0 < rows[i].amount.down) :: rows[i].key.bucket;
      forall b ensures b in ActiveBuckets(rows, f) <==> b in all {
        if b in ActiveBuckets(rows[1..], f) {
          var i :| 0 <= i < |rows[1..]| && Matches(f, rows[1..][i].key) && (0 < rows[1..][i].amount.up || 0 < rows[1..][i].amount.down) && rows[1..][i].key.bucket == b;
          assert rows[i + 1] == rows[1..][i];
        }
        if b in all {
          var i :| 0 <= i < |rows| && Matches(f, rows[i].key) && (0 < rows[i].amount.up || 0 < rows[i].amount.down) && rows[i].key.bucket == b;
          if i > 0 { assert rows[1..][i - 1] == rows[i]; }
        }
      }
    }
  }

  /** The least first and the greatest last stamp of the rows that belong to the group. */
  predicate StampsOf(rows: seq<MetricRow>, q: ReportQuery, source: string, v: string, res: Resolution, lo: Time, hi: Time, first: int, last: int) {
    && (exists i :: 0 <= i < |rows| && Belongs(rows[i], q, source, v, res, lo, hi) && rows[i].first == first)
    && (exists i :: 0 <= i < |rows| && Belongs(rows[i], q, source, v, res, lo, hi) && rows[i].last == last)
    && forall i :: 0 <= i < |rows| && Belongs(rows[i], q, source, v, res, lo, hi) ==> first <= rows[i].first && rows[i].last <= last
  }

  predicate AnyBelongs(rows: seq<MetricRow>, q: ReportQuery, source: string, v: string, res: Resolution, lo: Time, hi: Time) {
    exists i :: 0 <= i < |rows| && Belongs(rows[i], q, source, v, res, lo, hi)
  }

  lemma MatchesBelong(rows: seq<MetricRow>, q: ReportQuery, source: string, v: string, f: Filter)
    requires KeepsGroup(f, q, source, v)
    ensures ActiveBuckets(rows, f) == BusyBuckets(rows, q, source, v, f.res, f.lo, f.hi)
    ensures FirstOf(rows, f).Some? <==> AnyBelongs(rows, q, source, v, f.res, f.lo, f.hi)
    ensures LastOf(rows, f).Some? <==> AnyBelongs(rows, q, source, v, f.res, f.lo, f.hi)
    ensures AnyBelongs(rows, q, source, v, f.res, f.lo, f.hi) ==>
              StampsOf(rows, q, source, v, f.res, f.lo, f.hi, FirstOf(rows, f).value, LastOf(rows, f).value)
  {
    FirstIsLeast(rows, f);
    LastIsGreatest(rows, f);
    ActiveIs(rows, f);
    forall i | 0 <= i < |rows| ensures Matches(f, rows[i].key) <==> Belongs(rows[i], q, source, v, f.res, f.lo, f.hi) {}
  }

  /** The other figures of a group's row: the minutes with bytes, and the first and last stamps
      of the rows that belong to it. */
  lemma GroupRowStamped(days: Grid, t: Tables, q: ReportQuery, source: string, v: string, lo: Time, hi: Time) returns (first: int, last: int)
    requires Regular(days) && source in t.sources
    requires var res := if ByMinutes(t, q, source) then Minute else Day; StartsAt(GridOf(days, res), q.from, lo) && EndsAt(GridOf(days, res), q.to, hi)
    ensures var res := if ByMinutes(t, q, source) then Minute else Day;
            var row := GroupRow(t.metrics, QuestionFor(days, t, q, source, Up), q.groupBy, source, t.sources[source], v);
            && row.activeMinutes == (if res == Minute then |BusyBuckets(t.metrics, q, source, v, res, lo, hi)| else 0)
            && row.first == FromMillis(first) && row.last == FromMillis(last)
            && if AnyBelongs(t.metrics, q, source, v, res, lo, hi) then StampsOf(t.metrics, q, source, v, res, lo, hi, first, last) else first == last == 0
  {
    var f := QuestionFor(days, t, q, source, Up);
    var g := GroupFilter(f, q.groupBy, v);
    MinutesAsked(t, q, source);
    MinutesRegular();
    RangeIsLeast(GridOf(days, f.res), q);
    StartUnique(GridOf(days, f.res), q.from, lo, f.lo);
    EndUnique(GridOf(days, f.res), q.to, hi, f.hi);
    QuestionKeepsGroup(days, t, q, source, v, Up);
    MatchesBelong(t.metrics, q, source, v, g);
    first, last := Cut(FirstOf(t.metrics, g)), Cut(LastOf(t.metrics, g));
  }
}
