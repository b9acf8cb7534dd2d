/** A report shows the first rows of all its groups, although every source's own query
    is cut before the empty group is renamed: one row more than the limit is enough. With
    it a report meets everything the federated merge assumes of the collectors it reads. */
module Listing {
  import opened Calendar
  import opened Ledger
  import opened History
  import opened Ranking
  import opened Reports
  import F = Federation

  // ---------- renaming the empty group ----------

  /** Rows of one source, no two of one group. */
  predicate Grouped(source: string, rows: seq<ReportRow>) {
    (forall r :: r in rows ==> r.source == source) && forall i, j :: 0 <= i < j < |rows| ==> rows[i].key != rows[j].key
  }

  /** The renamed row comes no earlier. */
  lemma RenamedLater(r: ReportRow)
    ensures Le(r, Relabel(r))
  {
    LeTotal(r, r);
    if r.key == "" {
      assert Label(r) == r.source + "\0" + "";
      StrPrefix(r.source + "\0", "", UNATTRIBUTED);
    }
  }

  function Empties(rows: seq<ReportRow>): nat {
    if rows == [] then 0 else (if rows[0].key == "" then 1 else 0) + Empties(rows[1..])
  }

  lemma {:induction false} OneEmpty(source: string, rows: seq<ReportRow>)
    requires Grouped(source, rows)
    ensures Empties(rows) <= 1 && ((forall r :: r in rows ==> r.key != "") ==> Empties(rows) == 0)
  {
    if rows != [] {
      assert Grouped(source, rows[1..]);
      assert rows[0].key == "" ==> forall r :: r in rows[1..] ==> r.key != "";
      OneEmpty(source, rows[1..]);
    }
  }

  /** Of rows that come no later than y, all but the empty group still do. */
  lemma {:induction false} RenamedEarly(rows: seq<ReportRow>, y: ReportRow)
    requires forall x :: x in rows ==> Le(x, y)
    ensures |rows| <= |Early(RelabelAll(rows), y)| + Empties(rows)
  {
    if rows != [] {
      assert RelabelAll(rows) == [Relabel(rows[0])] + RelabelAll(rows[1..]);
      assert RelabelAll(rows)[1..] == RelabelAll(rows[1..]);
      assert rows[0] in rows && (rows[0].key != "" ==> RelabelAll(rows)[0] == rows[0]);
      RenamedEarly(rows[1..], y);
    }
  }

  lemma EnoughBefore(source: string, kept: seq<ReportRow>, w: ReportRow)
    requires Grouped(source, kept) && forall x :: x in kept ==> Le(x, w)
    ensures |kept| <= |Early(RelabelAll(kept), Relabel(w))| + 1
  {
    RenamedLater(w);
    forall x | x in kept ensures Le(x, Relabel(w)) {
      LeTransitive(x, w, Relabel(w));
    }
    OneEmpty(source, kept);
    RenamedEarly(kept, Relabel(w));
  }

  lemma PrefixGrouped(source: string, s: seq<ReportRow>, n: nat)
    requires Grouped(source, s) && n <= |s|
    ensures Grouped(source, s[..n])
  {}

  /** One row more than the limit is enough: what is cut off before the renaming comes, once
      renamed, after limit rows that are kept. */
  lemma CutBeforeRenaming(source: string, s: seq<ReportRow>, k: nat)
    requires Grouped(source, s) && Sorted(s)
    ensures Holds(k, RelabelAll(Take(k + 1, s)), RelabelAll(s))
  {
    if |s| > k + 1 {
      var kept, cut := s[..k + 1], s[k + 1..];
      PrefixGrouped(source, s, k + 1);
      SortedSplits(s, k + 1);
      assert RelabelAll(s) == RelabelAll(kept) + RelabelAll(cut);
      forall y | y in RelabelAll(cut) ensures k <= |Early(RelabelAll(kept), y)| {
        var j :| 0 <= j < |cut| && RelabelAll(cut)[j] == y;
        EnoughBefore(source, kept, cut[j]);
      }
      HoldsCut(k, RelabelAll(kept), RelabelAll(cut));
    }
  }

  // ---------- all groups of a report ----------

  function AllGroups(days: Grid, t: Tables, q: ReportQuery, ids: seq<string>): seq<ReportRow>
    requires forall i :: 0 <= i < |ids| ==> ids[i] in t.sources
  {
    if ids == [] then []
    else (if Asked(q, ids[0]) then RelabelAll(SourceGroups(days, t, q, ids[0])) else []) + AllGroups(days, t, q, ids[1..])
  }

  lemma {:induction false} GroupRowsGrouped(rows: seq<MetricRow>, f: Filter, group: GroupBy, source: string, row: Source, keys: seq<string>)
    requires NoTwice(keys)
    ensures var g := GroupRows(rows, f, group, source, row, keys); Grouped(source, g) && forall r :: r in g ==> r.key in keys
  {
    if keys != [] {
      GroupRowsGrouped(rows, f, group, source, row, keys[1..]);
    }
  }

  lemma SourceGrouped(days: Grid, t: Tables, q: ReportQuery, source: string)
    requires source in t.sources
    ensures Grouped(source, SourceGroups(days, t, q, source))
  {
    var f := QuestionFor(days, t, q, source, Up);
    GroupsPartition(t.metrics, f, q.groupBy);
    GroupRowsGrouped(t.metrics, f, q.groupBy, source, t.sources[source], GroupKeys(t.metrics, f, q.groupBy));
  }

  lemma GroupedSorted(source: string, rows: seq<ReportRow>, s: seq<ReportRow>)
    requires Grouped(source, rows) && multiset(rows) == multiset(s)
    ensures Grouped(source, s)
  {
    forall r | r in s ensures r in rows {
      assert r in multiset(s);
    }
    forall i, j | 0 <= i < j < |s| ensures s[i].key != s[j].key {
      if s[i].key == s[j].key {
        assert s[i] in rows && s[j] in rows;
        assert s == s[..i] + [s[i]] + s[i + 1..j] + [s[j]] + s[j + 1..];
        assert s[i] == s[j] && multiset(s)[s[i]] >= 2;
        GroupedOnce(source, rows, s[i]);
      }
    }
  }

  lemma {:induction false} GroupedOnce(source: string, rows: seq<ReportRow>, x: ReportRow)
    requires Grouped(source, rows)
    ensures multiset(rows)[x] <= 1
  {
    if rows != [] {
      assert rows == [rows[0]] + rows[1..];
      GroupedOnce(source, rows[1..], x);
      assert rows[0] !in rows[1..];
    }
  }

  lemma SortedCutHolds(source: string, groups: seq<ReportRow>, k: nat)
    requires Grouped(source, groups)
    ensures Holds(k, RelabelAll(Take(k + 1, SortRows(groups))), RelabelAll(groups))
    ensures |RelabelAll(Take(k + 1, SortRows(groups)))| == if |RelabelAll(groups)| > k then k + 1 else |RelabelAll(groups)|
  {
    SortSorts(groups);
    GroupedSorted(source, groups, SortRows(groups));
    CutBeforeRenaming(source, SortRows(groups), k);
    MappedPermutes(Relabel, groups, SortRows(groups));
    HoldsSame(k, RelabelAll(Take(k + 1, SortRows(groups))), RelabelAll(SortRows(groups)), RelabelAll(groups));
  }

  lemma HoldsSame(k: nat, a: seq<ReportRow>, g: seq<ReportRow>, h: seq<ReportRow>)
    requires Holds(k, a, g) && multiset(g) == multiset(h)
    ensures Holds(k, a, h)
  {}

  /** What one source answers holds the first rows of all its groups, and one more. */
  lemma AnswerHolds(days: Grid, t: Tables, q: ReportQuery, source: string)
    requires source in t.sources && 0 <= q.limit
    ensures var answer, groups := SourceAnswer(days, t, q, source), RelabelAll(SourceGroups(days, t, q, source));
            Holds(q.limit, answer, groups) && |answer| == if |groups| > q.limit then q.limit + 1 else |groups|
  {
    var groups, answer := SourceGroups(days, t, q, source), SourceAnswer(days, t, q, source);
    SourceGrouped(days, t, q, source);
    CutAnswerHolds(source, groups, answer, q.limit);
  }

  lemma CutAnswerHolds(source: string, groups: seq<ReportRow>, answer: seq<ReportRow>, k: nat)
    requires Grouped(source, groups) && answer == RelabelAll(Take(k + 1, SortRows(groups)))
    ensures Holds(k, answer, RelabelAll(groups)) && |answer| == if |RelabelAll(groups)| > k then k + 1 else |RelabelAll(groups)|
  {
    SortedCutHolds(source, groups, k);
  }

  lemma {:induction false} CollectedHolds(days: Grid, t: Tables, q: ReportQuery, ids: seq<string>)
    requires (forall i :: 0 <= i < |ids| ==> ids[i] in t.sources) && 0 <= q.limit
    ensures var some, all := Collected(days, t, q, ids), AllGroups(days, t, q, ids);
            Holds(q.limit, some, all) && |some| <= |all| && (|some| <= q.limit ==> |some| == |all|)
  {
    if ids != [] {
      CollectedHolds(days, t, q, ids[1..]);
      if Asked(q, ids[0]) {
        AnswerHolds(days, t, q, ids[0]);
        HoldsJoin(q.limit, SourceAnswer(days, t, q, ids[0]), RelabelAll(SourceGroups(days, t, q, ids[0])),
                  Collected(days, t, q, ids[1..]), AllGroups(days, t, q, ids[1..]));
      } else {
        assert [] + Collected(days, t, q, ids[1..]) == Collected(days, t, q, ids[1..]);
        assert [] + AllGroups(days, t, q, ids[1..]) == AllGroups(days, t, q, ids[1..]);
      }
    }
  }

  /** Whatever sort is used: a report is the first rows of all the groups of the sources it asks
      about, in the report order, and is marked truncated exactly when there are more. */
  lemma ReportIsTopOfAllGroups(days: Grid, t: Tables, q: ReportQuery, ids: seq<string>, sorted: seq<ReportRow>)
    requires (forall i :: 0 <= i < |ids| ==> ids[i] in t.sources) && 0 <= q.limit
    requires Sorted(sorted) && multiset(sorted) == multiset(Collected(days, t, q, ids))
    ensures IsTop(q.limit, Take(q.limit, sorted), AllGroups(days, t, q, ids))
    ensures |sorted| > q.limit <==> |AllGroups(days, t, q, ids)| > q.limit
  {
    var some := Collected(days, t, q, ids);
    assert |multiset(sorted)| == |multiset(some)|;
    CollectedHolds(days, t, q, ids);
    SortedTop(q.limit, sorted, some);
    TopOfHeld(q.limit, Take(q.limit, sorted), some, AllGroups(days, t, q, ids));
  }

  // ---------- where the order is fixed ----------

  /** The empty group and one literally called like its new name do not tie. */
  ghost predicate Apart(rows: seq<ReportRow>) {
    forall x, y :: x in rows && y in rows && x.key == "" && y.key == UNATTRIBUTED ==> x.up + x.down != y.up + y.down || x.connections != y.connections
  }

  lemma LabelsDiffer(source: string, x: ReportRow, y: ReportRow)
    requires x.source == source && y.source == source
    ensures Label(x) == Label(y) <==> x.key == y.key
  {
    var p := source + "\0";
    assert Label(x) == p + x.key && Label(y) == p + y.key;
    assert Label(x)[|p|..] == x.key && Label(y)[|p|..] == y.key;
  }

  lemma SameLabelSameKey(source: string, rows: seq<ReportRow>, i: nat, j: nat)
    requires Grouped(source, rows) && i < |rows| && j < |rows|
    ensures Label(Relabel(rows[i])) == Label(Relabel(rows[j])) <==> Relabel(rows[i]).key == Relabel(rows[j]).key
  {
    assert rows[i] in rows && rows[j] in rows;
    LabelsDiffer(source, Relabel(rows[i]), Relabel(rows[j]));
  }

  lemma TiedWhenTwins(source: string, rows: seq<ReportRow>, i: nat, j: nat)
    requires Grouped(source, rows) && i < |rows| && j < |rows| && rows[i].key == "" && rows[j].key == UNATTRIBUTED
    requires Untied(RelabelAll(rows))
    ensures rows[i].up + rows[i].down != rows[j].up + rows[j].down || rows[i].connections != rows[j].connections
  {
    SameLabelSameKey(source, rows, i, j);
    assert RelabelAll(rows)[i] == Relabel(rows[i]) && RelabelAll(rows)[j] == Relabel(rows[j]);
  }

  lemma ApartUnties(source: string, rows: seq<ReportRow>, i: nat, j: nat)
    requires Grouped(source, rows) && Apart(rows) && i < j < |rows|
    ensures PlaceOf(Relabel(rows[i])) != PlaceOf(Relabel(rows[j]))
  {
    assert rows[i] in rows && rows[j] in rows;
    SameLabelSameKey(source, rows, i, j);
  }

  /** Exactly then renaming leaves no two groups of a source that tie. */
  lemma RenamingDistinctIff(source: string, rows: seq<ReportRow>)
    requires Grouped(source, rows)
    ensures Untied(RelabelAll(rows)) <==> Apart(rows)
  {
    if Untied(RelabelAll(rows)) {
      forall x, y | x in rows && y in rows && x.key == "" && y.key == UNATTRIBUTED
        ensures x.up + x.down != y.up + y.down || x.connections != y.connections
      {
        var i :| 0 <= i < |rows| && rows[i] == x;
        var j :| 0 <= j < |rows| && rows[j] == y;
        TiedWhenTwins(source, rows, i, j);
      }
    }
    if Apart(rows) {
      forall i, j | 0 <= i < j < |rows| ensures PlaceOf(RelabelAll(rows)[i]) != PlaceOf(RelabelAll(rows)[j]) {
        ApartUnties(source, rows, i, j);
      }
    }
  }

  predicate NoNul(ids: seq<string>) { forall i :: 0 <= i < |ids| ==> '\0' !in ids[i] }

  /** In no source asked about the empty group ties with one literally called "(unattributed)". */
  ghost predicate AllApart(days: Grid, t: Tables, q: ReportQuery, ids: seq<string>)
    requires forall i :: 0 <= i < |ids| ==> ids[i] in t.sources
  {
    forall i :: 0 <= i < |ids| && Asked(q, ids[i]) ==> Apart(SourceGroups(days, t, q, ids[i]))
  }

  lemma RelabelSources(source: string, rows: seq<ReportRow>)
    requires forall r :: r in rows ==> r.source == source
    ensures forall r :: r in RelabelAll(rows) ==> r.source == source
  {
    forall r | r in RelabelAll(rows) ensures r.source == source {
      var i :| 0 <= i < |rows| && RelabelAll(rows)[i] == r;
      assert rows[i] in rows;
    }
  }

  lemma {:induction false} GroupSources(rows: seq<MetricRow>, f: Filter, group: GroupBy, source: string, row: Source, keys: seq<string>)
    ensures forall r :: r in GroupRows(rows, f, group, source, row, keys) ==> r.source == source
  {
    if keys != [] {
      GroupSources(rows, f, group, source, row, keys[1..]);
    }
  }

  lemma {:induction false} AllGroupsSources(days: Grid, t: Tables, q: ReportQuery, ids: seq<string>)
    requires forall i :: 0 <= i < |ids| ==> ids[i] in t.sources
    ensures forall r :: r in AllGroups(days, t, q, ids) ==> r.source in ids && Asked(q, r.source)
  {
    if ids != [] {
      var f := QuestionFor(days, t, q, ids[0], Up);
      AllGroupsSources(days, t, q, ids[1..]);
      GroupSources(t.metrics, f, q.groupBy, ids[0], t.sources[ids[0]], GroupKeys(t.metrics, f, q.groupBy));
      RelabelSources(ids[0], SourceGroups(days, t, q, ids[0]));
    }
  }

  lemma UntiedJoins(a: seq<ReportRow>, b: seq<ReportRow>)
    requires forall x, y :: x in a && y in b ==> PlaceOf(x) != PlaceOf(y)
    ensures Untied(a + b) <==> Untied(a) && Untied(b)
  {
    if Untied(a + b) {
      forall i, j | 0 <= i < j < |a| ensures PlaceOf(a[i]) != PlaceOf(a[j]) {
        assert (a + b)[i] == a[i] && (a + b)[j] == a[j];
      }
      forall i, j | 0 <= i < j < |b| ensures PlaceOf(b[i]) != PlaceOf(b[j]) {
        assert (a + b)[|a| + i] == b[i] && (a + b)[|a| + j] == b[j];
      }
    }
  }

  lemma OtherSources(source: string, a: seq<ReportRow>, b: seq<ReportRow>)
    requires '\0' !in source && (forall x :: x in a ==> x.source == source)
    requires forall y :: y in b ==> y.source != source && '\0' !in y.source
    ensures forall x, y :: x in a && y in b ==> PlaceOf(x) != PlaceOf(y)
  {
    forall x, y | x in a && y in b ensures PlaceOf(x) != PlaceOf(y) {
      if Label(x) == Label(y) { LabelSplit(x.source, x.key, y.source, y.key); }
    }
  }

  lemma ApartMore(days: Grid, t: Tables, q: ReportQuery, ids: seq<string>)
    requires (forall i :: 0 <= i < |ids| ==> ids[i] in t.sources) && ids != []
    ensures AllApart(days, t, q, ids) <==> (Asked(q, ids[0]) ==> Apart(SourceGroups(days, t, q, ids[0]))) && AllApart(days, t, q, ids[1..])
  {
    if AllApart(days, t, q, ids[1..]) {
      assert forall i :: 0 < i < |ids| ==> ids[i] == ids[1..][i - 1];
    }
  }

  lemma UntiedMore(days: Grid, t: Tables, q: ReportQuery, ids: seq<string>)
    requires (forall i :: 0 <= i < |ids| ==> ids[i] in t.sources) && NoTwice(ids) && NoNul(ids) && ids != []
    ensures var mine, rest := SourceGroups(days, t, q, ids[0]), AllGroups(days, t, q, ids[1..]);
            Untied(RelabelAll(mine) + rest) <==> Apart(mine) && Untied(rest)
  {
    var mine, rest := SourceGroups(days, t, q, ids[0]), AllGroups(days, t, q, ids[1..]);
    SourceGrouped(days, t, q, ids[0]);
    RenamingDistinctIff(ids[0], mine);
    RelabelSources(ids[0], mine);
    AllGroupsSources(days, t, q, ids[1..]);
    assert forall s :: s in ids[1..] ==> '\0' !in s;
    OtherSources(ids[0], RelabelAll(mine), rest);
    UntiedJoins(RelabelAll(mine), rest);
  }

  /** The report is fixed row by row exactly when in no source asked about they tie. */
  lemma {:induction false} AllGroupsUntiedIff(days: Grid, t: Tables, q: ReportQuery, ids: seq<string>)
    requires (forall i :: 0 <= i < |ids| ==> ids[i] in t.sources) && NoTwice(ids) && NoNul(ids)
    ensures Untied(AllGroups(days, t, q, ids)) <==> AllApart(days, t, q, ids)
  {
    if ids != [] {
      AllGroupsUntiedIff(days, t, q, ids[1..]);
      ApartMore(days, t, q, ids);
      if Asked(q, ids[0]) {
        UntiedMore(days, t, q, ids);
      } else {
        assert [] + AllGroups(days, t, q, ids[1..]) == AllGroups(days, t, q, ids[1..]);
      }
    }
  }

  // ---------- reports under federation ----------

  function GroupNamed(name: string): GroupBy {
    if name == "domain" then ByDomain else if name == "process" then ByProcess
    else if name == "route" then ByRoute else if name == "ip" then ByIp
    else if name == "principal" then ByPrincipal else BySource
  }

  /** The collector's reader answers with the report of its own ledger. */
  ghost predicate AnswersFrom(fq: F.Query, c: F.Collector, days: Grid, t: Tables, q: ReportQuery, ids: seq<string>)
    requires forall i :: 0 <= i < |ids| ==> ids[i] in t.sources
  {
    && q.source == fq.sourceId && q.groupBy == GroupNamed(fq.groupBy) && 0 <= fq.limit && q.limit == fq.limit
    && (fq.groupBy == "source" <==> q.groupBy.BySource?)
    && IsTop(q.limit, c.load(fq).report.rows, Collected(days, t, q, ids))
    && (c.load(fq).report.truncated <==> |Collected(days, t, q, ids)| > q.limit)
  }

  predicate SafeIds(ids: seq<string>) { forall i :: 0 <= i < |ids| ==> SafeName(ids[i]) }

  lemma SafeNameIsPlain(s: string)
    requires SafeName(s)
    ensures ':' !in s && '\0' !in s && s != ""
  {
    if ':' in s {
      var i :| 0 <= i < |s| && s[i] == ':';
      assert false;
    }
    if '\0' in s {
      var i :| 0 <= i < |s| && s[i] == '\0';
      assert false;
    }
  }

  /** Group rows carry their group's value; grouped by source that is the source. */
  lemma {:induction false} GroupRowsKeyed(rows: seq<MetricRow>, f: Filter, group: GroupBy, source: string, row: Source, keys: seq<string>)
    requires forall v :: v in keys ==> v == source
    ensures forall r :: r in GroupRows(rows, f, group, source, row, keys) ==> r.key == source
  {
    if keys != [] {
      assert keys[0] in keys && forall v :: v in keys[1..] ==> v in keys;
      GroupRowsKeyed(rows, f, group, source, row, keys[1..]);
    }
  }

  lemma {:induction false} KeysAreSource(rows: seq<MetricRow>, f: Filter, source: string)
    requires forall s, d :: f.keep(s, d) ==> s == source
    ensures forall v :: v in GroupKeys(rows, f, BySource) ==> v == source
  {
    if rows != [] {
      KeysAreSource(rows[1..], f, source);
    }
  }

  lemma {:induction false} KeyedBySource(days: Grid, t: Tables, q: ReportQuery, ids: seq<string>)
    requires (forall i :: 0 <= i < |ids| ==> ids[i] in t.sources) && SafeIds(ids) && q.groupBy.BySource?
    ensures forall r :: r in AllGroups(days, t, q, ids) ==> r.key == r.source
  {
    if ids != [] {
      var f := QuestionFor(days, t, q, ids[0], Up);
      var groups := SourceGroups(days, t, q, ids[0]);
      KeyedBySource(days, t, q, ids[1..]);
      KeysAreSource(t.metrics, f, ids[0]);
      GroupRowsKeyed(t.metrics, f, BySource, ids[0], t.sources[ids[0]], GroupKeys(t.metrics, f, BySource));
      GroupSources(t.metrics, f, BySource, ids[0], t.sources[ids[0]], GroupKeys(t.metrics, f, BySource));
      SafeNameIsPlain(ids[0]);
      forall i | 0 <= i < |groups| ensures RelabelAll(groups)[i] == groups[i] {
        assert groups[i] in groups;
      }
      assert RelabelAll(groups) == groups;
    }
  }

  lemma {:induction false} PlainEach(fq: F.Query, rows: seq<ReportRow>)
    requires forall r :: r in rows ==> F.Plain(fq, r)
    ensures F.AllPlain(fq, rows)
  {
    if rows != [] {
      PlainEach(fq, rows[1..]);
    }
  }

  /** A collector that answers from its ledger meets what the federated report assumes of
      it: its rows are the first of all its groups, and plain. */
  lemma LedgerIsFaithful(fq: F.Query, c: F.Collector, days: Grid, t: Tables, q: ReportQuery, ids: seq<string>)
    requires (forall i :: 0 <= i < |ids| ==> ids[i] in t.sources) && SafeIds(ids)
    requires AnswersFrom(fq, c, days, t, q, ids)
    ensures F.Faithful(fq, c, AllGroups(days, t, q, ids))
  {
    var full := AllGroups(days, t, q, ids);
    forall i | 0 <= i < |ids| ensures ':' !in ids[i] && '\0' !in ids[i] { SafeNameIsPlain(ids[i]); }
    CollectedHolds(days, t, q, ids);
    TopOfHeld(q.limit, c.load(fq).report.rows, Collected(days, t, q, ids), full);
    AllGroupsSources(days, t, q, ids);
    if fq.groupBy == "source" { KeyedBySource(days, t, q, ids); }
    assert forall s :: s in ids ==> ':' !in s && '\0' !in s;
    PlainEach(fq, full);
  }
}
