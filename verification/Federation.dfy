/** Juxtaposing the reports of several collectors. */
module Federation {
  import opened Ranking

  datatype Query = Query(sourceId: string, groupBy: string, limit: int)

  datatype Report = Report(rows: seq<ReportRow>, truncated: bool, resolution: string)

  /** What a collector's reader answers. Rows may come with an error. */
  datatype Answer = Answer(report: Report, failed: bool)

  datatype Collector = Collector(id: string, load: Query -> Answer)

  datatype Problem = BadLimit | BadCollectorId | TooManyCollectors | BadSelector | UnknownCollector | NoCollectors | AllUnavailable

  datatype Outcome = Merged(report: Report) | Refused(problem: Problem)

  const SEPARATOR := "::"

  predicate IsSpace(c: char) { c in " \t\n\r" || c == 11 as char || c == 12 as char }

  predicate HasSeparator(s: string) { exists i :: 0 <= i < |s| - 1 && s[i] == ':' && s[i + 1] == ':' }

  predicate ValidId(id: string) {
    && 0 < |id| <= 256 && !IsSpace(id[0]) && !IsSpace(id[|id| - 1]) && !HasSeparator(id)
    && forall i :: 0 <= i < |id| ==> id[i] !in "\0\r\n\t"
  }

  /** Where strings.Cut finds the separator, |s| when it does not. */
  function CutPoint(s: string, i: nat): nat
    requires i <= |s|
    decreases |s| - i
  {
    if i + 1 >= |s| then |s| else if s[i] == ':' && s[i + 1] == ':' then i else CutPoint(s, i + 1)
  }

  function Ids(cs: seq<Collector>): set<string> {
    if cs == [] then {} else {cs[0].id} + Ids(cs[1..])
  }

  predicate DistinctIds(cs: seq<Collector>) { cs == [] || (cs[0].id !in Ids(cs[1..]) && DistinctIds(cs[1..])) }

  predicate ValidIds(cs: seq<Collector>) { cs == [] || (ValidId(cs[0].id) && ValidIds(cs[1..])) }

  /** The row under its collector's name. */
  function Namespaced(q: Query, id: string, row: ReportRow): ReportRow {
    var source := id + SEPARATOR + row.source;
    row.(source := source, key := if q.groupBy == "source" && row.key == row.source then source else row.key)
  }

  predicate Wanted(q: Query, row: ReportRow) { q.sourceId == "" || row.source == q.sourceId }

  function NamespaceAll(q: Query, id: string, rows: seq<ReportRow>): seq<ReportRow> {
    if rows == [] then []
    else (if Wanted(q, rows[0]) then [Namespaced(q, id, rows[0])] else []) + NamespaceAll(q, id, rows[1..])
  }

  /** All rows the collectors returned, in the order they are appended. */
  function Gather(q: Query, cs: seq<Collector>): seq<ReportRow> {
    if cs == [] then [] else NamespaceAll(q, cs[0].id, cs[0].load(q).report.rows) + Gather(q, cs[1..])
  }

  predicate AnyTruncated(q: Query, cs: seq<Collector>) {
    cs != [] && (cs[0].load(q).report.truncated || AnyTruncated(q, cs[1..]))
  }

  function Resolutions(q: Query, cs: seq<Collector>): set<string> {
    if cs == [] then {}
    else (if cs[0].load(q).report.resolution == "" then {} else {cs[0].load(q).report.resolution}) + Resolutions(q, cs[1..])
  }

  predicate AnyLoaded(q: Query, cs: seq<Collector>) {
    cs != [] && (!cs[0].load(q).failed || AnyLoaded(q, cs[1..]))
  }

  function Effective(q: Query): Query {
    q.(groupBy := if q.groupBy == "" then "source" else q.groupBy, limit := if q.limit == 0 then 50 else q.limit)
  }

  // ---------- which collectors are read ----------

  /** First occurrences of each identifier. */
  function Dedupe(cs: seq<Collector>, seen: set<string>): seq<Collector> {
    if cs == [] then []
    else if cs[0].id in seen then Dedupe(cs[1..], seen)
    else [cs[0]] + Dedupe(cs[1..], seen + {cs[0].id})
  }

  function Find(cs: seq<Collector>, id: string): seq<Collector> {
    if cs == [] then [] else if cs[0].id == id then [cs[0]] else Find(cs[1..], id)
  }

  datatype Plan = Read(query: Query, collectors: seq<Collector>) | Stop(problem: Problem)

  function PlanFor(q: Query, collectors: seq<Collector>): Plan {
    var e := Effective(q);
    var cs := Dedupe(collectors, {});
    var at := CutPoint(q.sourceId, 0);
    CutPointFinds(q.sourceId, 0);
    if e.limit < 1 || e.limit > 1000 then Stop(BadLimit)
    else if !ValidIds(collectors) then Stop(BadCollectorId)
    else if |cs| > 8 then Stop(TooManyCollectors)
    else if at < |q.sourceId| then
      var id, source := q.sourceId[..at], q.sourceId[at + 2..];
      if id == "" || source == "" then Stop(BadSelector)
      else if Find(cs, id) == [] then Stop(UnknownCollector)
      else Read(e.(sourceId := source), Find(cs, id))
    else if cs == [] then Stop(NoCollectors)
    else Read(e, cs)
  }

  lemma {:induction false} DedupeKeepsOne(cs: seq<Collector>, seen: set<string>)
    ensures var d := Dedupe(cs, seen);
            DistinctIds(d) && Ids(d) == Ids(cs) - seen && (ValidIds(cs) ==> ValidIds(d))
  {
    if cs != [] {
      if cs[0].id in seen {
        DedupeKeepsOne(cs[1..], seen);
      } else {
        DedupeKeepsOne(cs[1..], seen + {cs[0].id});
      }
    }
  }

  lemma {:induction false} FindFinds(cs: seq<Collector>, id: string)
    ensures var f := Find(cs, id);
            if id in Ids(cs) then |f| == 1 && f[0].id == id && DistinctIds(f) && (ValidIds(cs) ==> ValidIds(f)) else f == []
  {
    if cs != [] {
      if cs[0].id == id {
        assert [cs[0]][1..] == [];
      } else {
        FindFinds(cs[1..], id);
      }
    }
  }

  /** A plan reads between one and eight collectors, no identifier twice: all that were
      given, or for a namespaced selector exactly the one it names. */
  lemma PlanReads(q: Query, collectors: seq<Collector>)
    requires PlanFor(q, collectors).Read?
    ensures var p := PlanFor(q, collectors);
            && 1 <= p.query.limit <= 1000 && 1 <= |p.collectors| <= 8 && DistinctIds(p.collectors) && ValidIds(p.collectors)
            && (if HasSeparator(q.sourceId)
                then |p.collectors| == 1 && q.sourceId == p.collectors[0].id + SEPARATOR + p.query.sourceId && p.query.sourceId != ""
                else p.query == Effective(q) && Ids(p.collectors) == Ids(collectors))
  {
    var at := CutPoint(q.sourceId, 0);
    CutPointFinds(q.sourceId, 0);
    DedupeKeepsOne(collectors, {});
    if at < |q.sourceId| {
      FindFinds(Dedupe(collectors, {}), q.sourceId[..at]);
      assert q.sourceId == q.sourceId[..at] + SEPARATOR + q.sourceId[at + 2..];
    }
  }

  // ---------- exactly when a query is refused ----------

  predicate IsBlank(c: char) { c == ' ' || c == '\t' || c == '\n' || c == '\r' || c == 11 as char || c == 12 as char }

  /** One to 256 characters, none of them NUL, tab or a line break, no blank at either end,
      no two colons in a row. */
  predicate GoodId(id: string) {
    && 1 <= |id| <= 256 && !IsBlank(id[0]) && !IsBlank(id[|id| - 1])
    && (forall i :: 0 <= i < |id| ==> id[i] != '\0' && id[i] != '\t' && id[i] != '\n' && id[i] != '\r')
    && forall i :: 0 < i < |id| ==> !(id[i - 1] == ':' && id[i] == ':')
  }

  /** The query names this collector: its identifier, two colons for the first time, and a source. */
  predicate Names(q: Query, id: string) {
    && |id| + 2 < |q.sourceId| && q.sourceId[..|id|] == id && q.sourceId[|id|] == ':' && q.sourceId[|id| + 1] == ':'
    && forall i :: 0 < i <= |id| ==> !(q.sourceId[i - 1] == ':' && q.sourceId[i] == ':')
  }

  predicate AllGood(cs: seq<Collector>) { forall i :: 0 <= i < |cs| ==> GoodId(cs[i].id) }

  lemma {:induction false} ValidIdsAre(cs: seq<Collector>)
    ensures ValidIds(cs) <==> AllGood(cs)
  {
    if cs != [] {
      ValidIdsAre(cs[1..]);
      IdIsGood(cs[0].id);
      assert AllGood(cs) <==> GoodId(cs[0].id) && AllGood(cs[1..]) by {
        assert forall i :: 0 < i < |cs| ==> cs[i] == cs[1..][i - 1];
      }
    }
  }

  lemma IdIsGood(id: string)
    ensures ValidId(id) <==> GoodId(id)
  {
    if ValidId(id) {
      forall i | 0 < i < |id| ensures !(id[i - 1] == ':' && id[i] == ':') {
        assert id[i - 1] == ':' && id[(i - 1) + 1] == ':' ==> HasSeparator(id);
      }
    }
  }

  lemma {:induction false} DistinctCount(cs: seq<Collector>)
    requires DistinctIds(cs)
    ensures |cs| == |Ids(cs)|
  {
    if cs != [] {
      DistinctCount(cs[1..]);
    }
  }

  lemma NamesAtCut(q: Query, id: string)
    ensures var at := CutPoint(q.sourceId, 0);
            Names(q, id) <==> at < |q.sourceId| && q.sourceId[..at] == id && at + 2 < |q.sourceId|
  {
    var s, at := q.sourceId, CutPoint(q.sourceId, 0);
    CutPointFinds(s, 0);
    CutPointFirst(s, 0);
    if Names(q, id) {
      assert s[|id|] == ':' && s[|id| + 1] == ':';
      assert at <= |id|;
    }
  }

  lemma {:induction false} CutPointFirst(s: string, i: nat)
    requires i <= |s|
    ensures forall j :: i <= j < CutPoint(s, i) && j + 1 < |s| ==> !(s[j] == ':' && s[j + 1] == ':')
    decreases |s| - i
  {
    if i + 1 < |s| && !(s[i] == ':' && s[i + 1] == ':') {
      CutPointFirst(s, i + 1);
    }
  }

  predicate NamesOne(q: Query, ids: set<string>) { exists id :: id in ids && id != "" && Names(q, id) }

  lemma NamesOneIff(q: Query, cs: seq<Collector>)
    requires HasSeparator(q.sourceId)
    ensures var at := CutPoint(q.sourceId, 0);
            && at + 2 <= |q.sourceId|
            && (NamesOne(q, Ids(cs)) <==> at != 0 && q.sourceId[at + 2..] != "" && Find(cs, q.sourceId[..at]) != [])
  {
    var at := CutPoint(q.sourceId, 0);
    CutPointFinds(q.sourceId, 0);
    NamesAtCut(q, q.sourceId[..at]);
    FindFinds(cs, q.sourceId[..at]);
    if id :| id in Ids(cs) && id != "" && Names(q, id) { NamesAtCut(q, id); }
  }

  lemma PlanReadIff(q: Query, collectors: seq<Collector>)
    ensures var cs := Dedupe(collectors, {});
            var at := CutPoint(q.sourceId, 0);
            PlanFor(q, collectors).Read? <==>
              && (q.limit == 0 || 1 <= q.limit <= 1000) && ValidIds(collectors) && |cs| <= 8
              && if at + 2 <= |q.sourceId| then at != 0 && q.sourceId[at + 2..] != "" && Find(cs, q.sourceId[..at]) != [] else cs != []
  {
    CutPointFinds(q.sourceId, 0);
  }

  lemma DedupeEmpty(collectors: seq<Collector>)
    ensures Dedupe(collectors, {}) == [] <==> collectors == []
  {}

  /** A query is planned exactly when its limit is between 1 and 1000 once defaulted, every
      identifier is good, at most eight different ones are given, and either it names one of
      them and a source, or it has no two colons and some collector is given. */
  lemma PlannedIff(q: Query, collectors: seq<Collector>)
    ensures PlanFor(q, collectors).Read? <==>
            && (q.limit == 0 || 1 <= q.limit <= 1000) && AllGood(collectors) && |Ids(collectors)| <= 8
            && if HasSeparator(q.sourceId) then NamesOne(q, Ids(collectors)) else collectors != []
  {
    var cs := Dedupe(collectors, {});
    PlanReadIff(q, collectors);
    ValidIdsAre(collectors);
    DedupeKeepsOne(collectors, {});
    DedupeEmpty(collectors);
    assert Ids(cs) == Ids(collectors);
    DistinctCount(cs);
    SeparatorAtCut(q.sourceId);
    if HasSeparator(q.sourceId) { NamesOneIff(q, cs); }
  }

  lemma SeparatorAtCut(s: string)
    ensures HasSeparator(s) <==> CutPoint(s, 0) + 2 <= |s|
  {
    CutPointFinds(s, 0);
  }

  // ---------- the merge ----------

  /** Several resolutions are mixed, none is unknown, a single one is reported as it is. */
  predicate ResolutionOf(all: set<string>, resolution: string) {
    if |all| > 1 || "mixed" in all then resolution == "mixed"
    else if all == {} then resolution == "unknown" else all == {resolution}
  }

  method MergedResolution(all: set<string>) returns (resolution: string)
    ensures ResolutionOf(all, resolution)
  {
    resolution := "unknown";
    if |all| > 1 || "mixed" in all {
      resolution := "mixed";
    } else if all != {} {
      var only :| only in all;
      assert all == {only} + (all - {only});
      assert |all - {only}| == 0;
      resolution := only;
    }
  }

  method Merge(q: Query, cs: seq<Collector>) returns (r: Report, successful: nat)
    requires 1 <= q.limit
    ensures r.rows == Take(q.limit, SortRows(Gather(q, cs)))
    ensures r.truncated <==> AnyTruncated(q, cs) || |Gather(q, cs)| > q.limit
    ensures successful > 0 <==> AnyLoaded(q, cs)
    ensures ResolutionOf(Resolutions(q, cs), r.resolution)
  {
    var rows: seq<ReportRow> := [];
    var truncated := false;
    var resolutions: set<string> := {};
    successful := 0;
    for k := 0 to |cs|
      invariant rows + Gather(q, cs[k..]) == Gather(q, cs)
      invariant resolutions + Resolutions(q, cs[k..]) == Resolutions(q, cs)
      invariant (truncated || AnyTruncated(q, cs[k..])) <==> AnyTruncated(q, cs)
      invariant (successful > 0 || AnyLoaded(q, cs[k..])) <==> AnyLoaded(q, cs)
    {
      var answer := cs[k].load(q);
      assert cs[k..][0] == cs[k] && cs[k..][1..] == cs[k + 1..];
      if !answer.failed {
        successful := successful + 1;
      }
      if answer.report.resolution != "" {
        resolutions := resolutions + {answer.report.resolution};
      }
      var added := AppendNamespaced(q, cs[k].id, answer.report.rows);
      assert rows + (added + Gather(q, cs[k + 1..])) == (rows + added) + Gather(q, cs[k + 1..]);
      rows := rows + added;
      truncated := truncated || answer.report.truncated;
    }
    assert cs[|cs|..] == [] && rows + [] == rows;
    SortSorts(rows);
    var sorted := SortRows(rows);
    if |sorted| > q.limit {
      sorted := sorted[..q.limit];
      truncated := true;
    }
    var resolution := MergedResolution(resolutions);
    r := Report(sorted, truncated, resolution);
  }

  lemma Shift<T>(a: seq<T>, x: T, b: seq<T>)
    ensures a + ([x] + b) == (a + [x]) + b
  {}

  method AppendNamespaced(q: Query, id: string, rows: seq<ReportRow>) returns (out: seq<ReportRow>)
    ensures out == NamespaceAll(q, id, rows)
  {
    out := [];
    for k := 0 to |rows|
      invariant out + NamespaceAll(q, id, rows[k..]) == NamespaceAll(q, id, rows)
    {
      assert rows[k..][0] == rows[k] && rows[k..][1..] == rows[k + 1..];
      if Wanted(q, rows[k]) {
        Shift(out, Namespaced(q, id, rows[k]), NamespaceAll(q, id, rows[k + 1..]));
        out := out + [Namespaced(q, id, rows[k])];
      } else {
        assert [] + NamespaceAll(q, id, rows[k + 1..]) == NamespaceAll(q, id, rows[k + 1..]);
      }
    }
  }

  /** Check the identifiers and keep the first collector of each. */
  method Select(collectors: seq<Collector>) returns (valid: bool, cs: seq<Collector>)
    ensures valid <==> ValidIds(collectors)
    ensures valid ==> cs == Dedupe(collectors, {})
  {
    var seen: set<string> := {};
    cs := [];
    for k := 0 to |collectors|
      invariant cs + Dedupe(collectors[k..], seen) == Dedupe(collectors, {})
      invariant ValidIds(collectors[k..]) <==> ValidIds(collectors)
    {
      var c := collectors[k];
      assert collectors[k..][0] == c && collectors[k..][1..] == collectors[k + 1..];
      if !ValidId(c.id) {
        return false, [];
      }
      if c.id !in seen {
        Shift(cs, c, Dedupe(collectors[k + 1..], seen + {c.id}));
        seen := seen + {c.id};
        cs := cs + [c];
      }
    }
    assert collectors[|collectors|..] == [] && cs + [] == cs;
    valid := true;
  }

  method Locate(cs: seq<Collector>, id: string) returns (found: seq<Collector>)
    ensures found == Find(cs, id)
  {
    for k := 0 to |cs|
      invariant Find(cs[k..], id) == Find(cs, id)
    {
      if cs[k].id == id {
        return [cs[k]];
      }
    }
    found := [];
  }

  /** The federated report: validate, select, route a namespaced selector, merge. */
  method Federate(q: Query, collectors: seq<Collector>) returns (r: Outcome)
    ensures var plan := PlanFor(q, collectors);
            && (plan.Stop? ==> r == Refused(plan.problem))
            && (plan.Read? && !AnyLoaded(plan.query, plan.collectors) ==> r == Refused(AllUnavailable))
            && (plan.Read? && AnyLoaded(plan.query, plan.collectors) ==>
                  var all := Gather(plan.query, plan.collectors);
                  && r.Merged? && r.report.rows == Take(plan.query.limit, SortRows(all))
                  && (r.report.truncated <==> AnyTruncated(plan.query, plan.collectors) || |all| > plan.query.limit)
                  && ResolutionOf(Resolutions(plan.query, plan.collectors), r.report.resolution))
  {
    var e := Effective(q);
    if e.limit < 1 || e.limit > 1000 {
      return Refused(BadLimit);
    }
    var valid, cs := Select(collectors);
    if !valid {
      return Refused(BadCollectorId);
    }
    if |cs| > 8 {
      return Refused(TooManyCollectors);
    }
    var at := CutPoint(q.sourceId, 0);
    CutPointFinds(q.sourceId, 0);
    if at < |q.sourceId| {
      var id, source := q.sourceId[..at], q.sourceId[at + 2..];
      if id == "" || source == "" {
        return Refused(BadSelector);
      }
      cs := Locate(cs, id);
      if cs == [] {
        return Refused(UnknownCollector);
      }
      e := e.(sourceId := source);
    }
    if cs == [] {
      return Refused(NoCollectors);
    }
    assert PlanFor(q, collectors) == Read(e, cs);
    var report, successful := Merge(e, cs);
    if successful == 0 {
      return Refused(AllUnavailable);
    }
    r := Merged(report);
  }

  lemma {:induction false} CutPointFinds(s: string, i: nat)
    requires i <= |s|
    ensures i <= CutPoint(s, i) <= |s|
    ensures CutPoint(s, i) < |s| <==> exists j :: i <= j < |s| - 1 && s[j] == ':' && s[j + 1] == ':'
    ensures var c := CutPoint(s, i); c < |s| ==> c + 1 < |s| && s[c] == ':' && s[c + 1] == ':'
    decreases |s| - i
  {
    if i + 1 < |s| && !(s[i] == ':' && s[i + 1] == ':') {
      CutPointFinds(s, i + 1);
    }
  }

  /** The defaults of a query, and what the merge makes of the answers as a whole: cut if one is,
      loaded if one is, of the resolutions they name. */
  lemma {:induction false} AnswersTogether(q: Query, cs: seq<Collector>, resolution: string)
    ensures Effective(q).groupBy == (if q.groupBy == "" then "source" else q.groupBy) && Effective(q).limit == (if q.limit == 0 then 50 else q.limit)
    ensures Effective(q).sourceId == q.sourceId
    ensures AnyTruncated(q, cs) <==> exists i :: 0 <= i < |cs| && cs[i].load(q).report.truncated
    ensures AnyLoaded(q, cs) <==> exists i :: 0 <= i < |cs| && !cs[i].load(q).failed
    ensures resolution in Resolutions(q, cs) <==> resolution != "" && exists i :: 0 <= i < |cs| && cs[i].load(q).report.resolution == resolution
  {
    if cs != [] {
      AnswersTogether(q, cs[1..], resolution);
      assert forall i :: 0 < i < |cs| ==> cs[i] == cs[1..][i - 1];
    }
  }

  // ---------- the first rows of the union ----------

  /** A collector's answer when its complete report would hold these rows. */
  ghost predicate Faithful(q: Query, c: Collector, full: seq<ReportRow>)
    requires 0 <= q.limit
  {
    var answer := c.load(q).report;
    IsTop(q.limit, answer.rows, full) && (answer.truncated <==> |full| > q.limit) && AllPlain(q, full)
  }

  predicate AllPlain(q: Query, rows: seq<ReportRow>) { rows == [] || (Plain(q, rows[0]) && AllPlain(q, rows[1..])) }

  /** Rows as the reports make them: wanted, their source a name without colon or NUL,
      keyed by it when grouped by source. */
  predicate Plain(q: Query, row: ReportRow) {
    Wanted(q, row) && ':' !in row.source && '\0' !in row.source && (q.groupBy == "source" ==> row.key == row.source)
  }

  function Union(q: Query, cs: seq<Collector>, full: seq<seq<ReportRow>>): seq<ReportRow>
    requires |full| == |cs|
  {
    if cs == [] then [] else NamespaceAll(q, cs[0].id, full[0]) + Union(q, cs[1..], full[1..])
  }

  /** Naming the collector keeps a report's own order. */
  lemma NamespaceKeepsOrder(q: Query, id: string, a: ReportRow, b: ReportRow)
    requires Plain(q, a) && Plain(q, b) && '\0' !in id
    ensures Le(Namespaced(q, id, a), Namespaced(q, id, b)) <==> Le(a, b)
  {
    var p := id + SEPARATOR;
    var x, y := Namespaced(q, id, a), Namespaced(q, id, b);
    if q.groupBy == "source" {
      if a.source == b.source {
        StrTotal(Label(a), Label(b));
        StrTotal(Label(x), Label(y));
      } else {
        assert x.source[|p|..] == a.source && y.source[|p|..] == b.source;
        StrHeadDecides(x.source, y.source, x.key, y.key, a.key, b.key);
        assert x.source + "\0" + a.key == p + Label(a) && y.source + "\0" + b.key == p + Label(b);
        StrPrefix(p, Label(a), Label(b));
      }
    } else {
      assert Label(x) == p + Label(a) && Label(y) == p + Label(b);
      StrPrefix(p, Label(a), Label(b));
    }
  }

  lemma {:induction false} NamespaceIsMapped(q: Query, id: string, rows: seq<ReportRow>)
    requires AllPlain(q, rows)
    ensures NamespaceAll(q, id, rows) == Mapped(r => Namespaced(q, id, r), rows) && forall r :: r in rows ==> Plain(q, r)
  {
    if rows != [] {
      NamespaceIsMapped(q, id, rows[1..]);
    }
  }

  lemma {:induction false} PlainPart(q: Query, rows: seq<ReportRow>)
    requires forall r :: r in rows ==> Plain(q, r)
    ensures AllPlain(q, rows)
  {
    if rows != [] {
      PlainPart(q, rows[1..]);
    }
  }

  /** One collector's appended rows are the first rows of its complete report, named. */
  lemma AppendedIsTop(q: Query, c: Collector, full: seq<ReportRow>)
    requires 0 <= q.limit && Faithful(q, c, full) && ValidId(c.id)
    ensures IsTop(q.limit, NamespaceAll(q, c.id, c.load(q).report.rows), NamespaceAll(q, c.id, full))
    ensures |NamespaceAll(q, c.id, full)| == |full|
  {
    var rows := c.load(q).report.rows;
    NamespaceIsMapped(q, c.id, full);
    forall r | r in rows ensures Plain(q, r) {
      assert r in multiset(full);
    }
    PlainPart(q, rows);
    NamespaceIsMapped(q, c.id, rows);
    forall x, y | x in full && y in full && Le(x, y) ensures Le(Namespaced(q, c.id, x), Namespaced(q, c.id, y)) {
      NamespaceKeepsOrder(q, c.id, x, y);
    }
    MappedTop(q.limit, r => Namespaced(q, c.id, r), rows, full);
  }

  ghost predicate AllFaithful(q: Query, cs: seq<Collector>, full: seq<seq<ReportRow>>)
    requires |full| == |cs| && 0 <= q.limit
  {
    ValidIds(cs) && forall i :: 0 <= i < |cs| ==> Faithful(q, cs[i], full[i])
  }

  /** The merge appends the whole union unless some collector cut its rows, and then the
      union is over the limit as well. */
  lemma {:induction false} GatherCount(q: Query, cs: seq<Collector>, full: seq<seq<ReportRow>>)
    requires |full| == |cs| && 0 <= q.limit && AllFaithful(q, cs, full)
    ensures |Gather(q, cs)| <= |Union(q, cs, full)|
    ensures if AnyTruncated(q, cs) then |Union(q, cs, full)| > q.limit else |Gather(q, cs)| == |Union(q, cs, full)|
  {
    if cs != [] {
      GatherCount(q, cs[1..], full[1..]);
      AppendedIsTop(q, cs[0], full[0]);
      assert Faithful(q, cs[0], full[0]);
    }
  }

  lemma {:induction false} GatherHolds(q: Query, cs: seq<Collector>, full: seq<seq<ReportRow>>)
    requires |full| == |cs| && 0 <= q.limit && AllFaithful(q, cs, full)
    ensures Holds(q.limit, Gather(q, cs), Union(q, cs, full))
  {
    if cs != [] {
      var part := NamespaceAll(q, cs[0].id, full[0]);
      AppendedIsTop(q, cs[0], full[0]);
      TopHolds(q.limit, NamespaceAll(q, cs[0].id, cs[0].load(q).report.rows), part);
      GatherHolds(q, cs[1..], full[1..]);
      HoldsJoin(q.limit, NamespaceAll(q, cs[0].id, cs[0].load(q).report.rows), part, Gather(q, cs[1..]), Union(q, cs[1..], full[1..]));
    }
  }

  /** Cutting each collector's report to its first rows loses none of the first rows of
      the union, whatever sorts are used. */
  lemma TopOfUnion(q: Query, cs: seq<Collector>, full: seq<seq<ReportRow>>, sorted: seq<ReportRow>)
    requires |full| == |cs| && 0 <= q.limit && AllFaithful(q, cs, full)
    requires Sorted(sorted) && multiset(sorted) == multiset(Gather(q, cs))
    ensures IsTop(q.limit, Take(q.limit, sorted), Union(q, cs, full))
  {
    GatherHolds(q, cs, full);
    SortedTop(q.limit, sorted, Gather(q, cs));
    TopOfHeld(q.limit, Take(q.limit, sorted), Gather(q, cs), Union(q, cs, full));
  }

  /** A row is shown under its collector: the source, and the key where that is the source, behind
      the identifier and two colons; its figures do not change. */
  lemma NamedAs(q: Query, id: string, row: ReportRow)
    ensures var named := Namespaced(q, id, row);
            && named.source == id + "::" + row.source
            && named.key == (if q.groupBy == "source" && row.key == row.source then id + "::" + row.source else row.key)
            && named.(source := row.source, key := row.key) == row
  {}

  /** What the merge appends are the rows the collectors returned for the asked source, each
      under its collector. */
  lemma {:induction false} GatherMeans(q: Query, cs: seq<Collector>, x: ReportRow)
    ensures x in Gather(q, cs) <==>
            exists i, j :: 0 <= i < |cs| && 0 <= j < |cs[i].load(q).report.rows| &&
              (q.sourceId == "" || cs[i].load(q).report.rows[j].source == q.sourceId) && x == Namespaced(q, cs[i].id, cs[i].load(q).report.rows[j])
  {
    if cs != [] {
      GatherMeans(q, cs[1..], x);
      NamespaceMeans(q, cs[0].id, cs[0].load(q).report.rows, x);
      assert forall i :: 0 < i < |cs| ==> cs[i] == cs[1..][i - 1];
    }
  }

  lemma {:induction false} NamespaceMeans(q: Query, id: string, rows: seq<ReportRow>, x: ReportRow)
    ensures x in NamespaceAll(q, id, rows) <==>
            exists j :: 0 <= j < |rows| && (q.sourceId == "" || rows[j].source == q.sourceId) && x == Namespaced(q, id, rows[j])
  {
    if rows != [] {
      NamespaceMeans(q, id, rows[1..], x);
      assert forall j :: 0 < j < |rows| ==> rows[j] == rows[1..][j - 1];
    }
  }

  /** Namespacing is injective on sources without a colon. */
  lemma NamespaceInjective(id: string, source: string, id': string, source': string)
    requires ':' !in source && ':' !in source'
    requires id + SEPARATOR + source == id' + SEPARATOR + source'
    ensures id == id' && source == source'
  {
    var s := id + SEPARATOR + source;
    var t := id' + SEPARATOR + source';
    assert s[|id| + 1] == ':' && t[|id'| + 1] == ':';
    assert forall i :: |id| + 2 <= i < |s| ==> s[i] == source[i - |id| - 2];
    assert forall i :: |id'| + 2 <= i < |t| ==> t[i] == source'[i - |id'| - 2];
    assert |id| == |id'|;
    assert id == s[..|id|] && id' == t[..|id'|] && source == s[|id| + 2..] && source' == t[|id'| + 2..];
  }

  /** Named rows share a label only when they are of one collector and share it there. */
  lemma NamedLabels(q: Query, id: string, x: ReportRow, id': string, y: ReportRow)
    requires Plain(q, x) && Plain(q, y) && ValidId(id) && ValidId(id')
    requires Label(Namespaced(q, id, x)) == Label(Namespaced(q, id', y))
    ensures id == id' && Label(x) == Label(y)
  {
    var u, v := Namespaced(q, id, x), Namespaced(q, id', y);
    LabelSplit(u.source, u.key, v.source, v.key);
    NamespaceInjective(id, x.source, id', y.source);
  }

  /** Reading the planned collectors, each answering its own first rows, gives exactly the
      first rows of everything they hold, and says so when that is not everything. */
  lemma FederationIsExact(q: Query, collectors: seq<Collector>, full: seq<seq<ReportRow>>)
    requires PlanFor(q, collectors).Read?
    requires var p := PlanFor(q, collectors);
             |full| == |p.collectors| && forall i :: 0 <= i < |full| ==> 0 <= p.query.limit && Faithful(p.query, p.collectors[i], full[i])
    ensures var p := PlanFor(q, collectors);
            var all := Union(p.query, p.collectors, full);
            && 1 <= p.query.limit && IsTop(p.query.limit, Take(p.query.limit, SortRows(Gather(p.query, p.collectors))), all)
            && (AnyTruncated(p.query, p.collectors) || |Gather(p.query, p.collectors)| > p.query.limit <==> |all| > p.query.limit)
  {
    var p := PlanFor(q, collectors);
    PlanReads(q, collectors);
    SortSorts(Gather(p.query, p.collectors));
    TopOfUnion(p.query, p.collectors, full, SortRows(Gather(p.query, p.collectors)));
    GatherCount(p.query, p.collectors, full);
  }

  /** A source with a colon can be confused with another collector's. */
  lemma ColonsCollide()
    ensures "a" + SEPARATOR + "b::c" == "a::b" + SEPARATOR + "c"
    ensures "a" + SEPARATOR + ":c" == "a:" + SEPARATOR + "c"
  {}
}
