/** The order report rows are shown in, and what cutting a sorted list keeps: more bytes
    first, then more connections, then by source and key. The library sort is modelled by
    insertion, but what is proved is proved of every sorted list of the same rows: where rows
    tie, sorts may differ, and all of them show the first rows of the whole. */
module Ranking {
  import opened Clock

  datatype ReportRow = ReportRow(
    source: string, kind: string, scope: string, key: string,
    up: int, down: int, connections: int, activeMinutes: int, first: Time, last: Time)

  predicate StrLe(a: string, b: string) {
    a == "" || (b != "" && (a[0] < b[0] || (a[0] == b[0] && StrLe(a[1..], b[1..]))))
  }

  function Label(r: ReportRow): string { r.source + "\0" + r.key }

  /** All of a row that its order depends on. */
  datatype Place = Place(bytes: int, connections: int, name: string)

  function PlaceOf(r: ReportRow): Place { Place(r.up + r.down, r.connections, Label(r)) }

  /** More bytes first, then more connections, then by label. */
  predicate Le(a: ReportRow, b: ReportRow) {
    if a.up + a.down != b.up + b.down then a.up + a.down > b.up + b.down
    else if a.connections != b.connections then a.connections > b.connections
    else StrLe(Label(a), Label(b))
  }

  lemma {:induction false} StrTotal(a: string, b: string)
    ensures StrLe(a, b) || StrLe(b, a)
    ensures StrLe(a, b) && StrLe(b, a) ==> a == b
  {
    if a != "" && b != "" && a[0] == b[0] {
      StrTotal(a[1..], b[1..]);
      assert a == [a[0]] + a[1..] && b == [b[0]] + b[1..];
    }
  }

  lemma {:induction false} StrTransitive(a: string, b: string, c: string)
    requires StrLe(a, b) && StrLe(b, c)
    ensures StrLe(a, c)
  {
    if a != "" && a[0] == b[0] && b[0] == c[0] {
      StrTransitive(a[1..], b[1..], c[1..]);
    }
  }

  /** A common prefix does not matter. */
  lemma {:induction false} StrPrefix(p: string, a: string, b: string)
    ensures StrLe(p + a, p + b) <==> StrLe(a, b)
  {
    if p == "" {
      assert p + a == a && p + b == b;
    } else {
      assert (p + a)[1..] == p[1..] + a && (p + b)[1..] == p[1..] + b;
      StrPrefix(p[1..], a, b);
    }
  }

  /** When the parts before the separator differ, what follows it does not matter. */
  lemma {:induction false} StrHeadDecides(a: string, b: string, x: string, y: string, x': string, y': string)
    requires a != b && '\0' !in a && '\0' !in b
    ensures StrLe(a + "\0" + x, b + "\0" + y) <==> StrLe(a + "\0" + x', b + "\0" + y')
  {
    if a != "" && b != "" && a[0] == b[0] {
      assert a == [a[0]] + a[1..] && b == [b[0]] + b[1..];
      assert (a + "\0" + x)[1..] == a[1..] + "\0" + x && (b + "\0" + y)[1..] == b[1..] + "\0" + y;
      assert (a + "\0" + x')[1..] == a[1..] + "\0" + x' && (b + "\0" + y')[1..] == b[1..] + "\0" + y';
      StrHeadDecides(a[1..], b[1..], x, y, x', y');
    } else {
      var s, t, s', t' := a + "\0" + x, b + "\0" + y, a + "\0" + x', b + "\0" + y';
      assert s[0] == s'[0] && t[0] == t'[0] && s[0] != t[0];
    }
  }

  lemma LeTotal(a: ReportRow, b: ReportRow)
    ensures Le(a, b) || Le(b, a)
    ensures Le(a, b) && Le(b, a) ==> PlaceOf(a) == PlaceOf(b)
  {
    StrTotal(Label(a), Label(b));
  }

  lemma LeTransitive(a: ReportRow, b: ReportRow, c: ReportRow)
    requires Le(a, b) && Le(b, c)
    ensures Le(a, c)
  {
    if StrLe(Label(a), Label(b)) && StrLe(Label(b), Label(c)) {
      StrTransitive(Label(a), Label(b), Label(c));
    }
  }

  /** The texts differ first at k, where a has the smaller character, or a ends there. */
  predicate SmallerAt(a: string, b: string, k: nat) {
    k <= |a| && k <= |b| && a[..k] == b[..k] && (k == |a| || (k < |b| && a[k] < b[k]))
  }

  lemma PrefixHeads(a: string, b: string)
    ensures forall k :: 0 < k <= |a| && k <= |b| && a[..k] == b[..k] ==> a[0] == b[0]
  {
    forall k | 0 < k <= |a| && k <= |b| && a[..k] == b[..k] ensures a[0] == b[0] {
      assert a[..k][0] == b[..k][0];
    }
  }

  lemma {:induction false} StrLeMeans(a: string, b: string)
    ensures StrLe(a, b) <==> exists k :: 0 <= k <= |a| && SmallerAt(a, b, k)
  {
    if a == "" {
      assert SmallerAt(a, b, 0);
    } else if b != "" && a[0] == b[0] {
      StrLeMeans(a[1..], b[1..]);
      if k :| 0 <= k <= |a[1..]| && SmallerAt(a[1..], b[1..], k) {
        assert a[..k + 1] == [a[0]] + a[1..][..k] && b[..k + 1] == [b[0]] + b[1..][..k];
        assert SmallerAt(a, b, k + 1);
      }
      if k :| 0 <= k <= |a| && SmallerAt(a, b, k) && k > 0 {
        assert a[1..][..k - 1] == a[..k][1..] && b[1..][..k - 1] == b[..k][1..];
        assert SmallerAt(a[1..], b[1..], k - 1);
      }
    } else if b != "" && a[0] < b[0] {
      assert SmallerAt(a, b, 0);
    } else {
      PrefixHeads(a, b);
    }
  }

  /** The report order: more bytes first, then more connections, then by source and key. */
  lemma OrderMeans(a: ReportRow, b: ReportRow)
    ensures Le(a, b) <==>
            || a.up + a.down > b.up + b.down
            || (a.up + a.down == b.up + b.down && a.connections > b.connections)
            || (a.up + a.down == b.up + b.down && a.connections == b.connections
                && exists k :: 0 <= k <= |a.source + "\0" + a.key| && SmallerAt(a.source + "\0" + a.key, b.source + "\0" + b.key, k))
  {
    StrLeMeans(a.source + "\0" + a.key, b.source + "\0" + b.key);
  }

  // ---------- sorting and cutting ----------

  function Insert(x: ReportRow, s: seq<ReportRow>): seq<ReportRow> {
    if s == [] || Le(x, s[0]) then [x] + s else [s[0]] + Insert(x, s[1..])
  }

  /** The library's stable sort. */
  function SortRows(s: seq<ReportRow>): seq<ReportRow> {
    if s == [] then [] else Insert(s[0], SortRows(s[1..]))
  }

  function Take(k: nat, s: seq<ReportRow>): seq<ReportRow> { if |s| <= k then s else s[..k] }

  predicate Sorted(s: seq<ReportRow>) { |s| <= 1 || (Le(s[0], s[1]) && Sorted(s[1..])) }

  lemma {:induction false} InsertSorted(x: ReportRow, s: seq<ReportRow>)
    requires Sorted(s)
    ensures Sorted(Insert(x, s)) && multiset(Insert(x, s)) == multiset(s) + multiset{x}
  {
    if s == [] {
    } else if Le(x, s[0]) {
      assert ([x] + s)[1..] == s;
    } else {
      LeTotal(x, s[0]);
      InsertSorted(x, s[1..]);
      var rest := Insert(x, s[1..]);
      assert ([s[0]] + rest)[1..] == rest;
      assert s == [s[0]] + s[1..];
    }
  }

  lemma {:induction false} InsertLength(x: ReportRow, s: seq<ReportRow>)
    ensures |Insert(x, s)| == |s| + 1
  {
    if s != [] && !Le(x, s[0]) {
      InsertLength(x, s[1..]);
    }
  }

  /** The result is sorted and a permutation of the input. */
  lemma {:induction false} SortSorts(s: seq<ReportRow>)
    ensures Sorted(SortRows(s)) && multiset(SortRows(s)) == multiset(s) && |SortRows(s)| == |s|
  {
    if s != [] {
      SortSorts(s[1..]);
      InsertSorted(s[0], SortRows(s[1..]));
      InsertLength(s[0], SortRows(s[1..]));
      assert s == [s[0]] + s[1..];
    }
  }

  lemma {:induction false} TakeSorted(k: nat, s: seq<ReportRow>)
    requires Sorted(s)
    ensures Sorted(Take(k, s))
  {
    if 2 <= k < |s| {
      TakeSorted(k - 1, s[1..]);
      assert s[..k][1..] == s[1..][..k - 1];
    }
  }

  lemma {:induction false} SortedMeans(s: seq<ReportRow>, i: nat, j: nat)
    requires Sorted(s) && i <= j < |s|
    ensures Le(s[i], s[j])
  {
    if i > 0 {
      SortedMeans(s[1..], i - 1, j - 1);
    } else if j == 0 {
      LeTotal(s[0], s[0]);
    } else {
      SortedMeans(s[1..], 0, j - 1);
      LeTransitive(s[0], s[1], s[j]);
    }
  }

  lemma SortedSplits(s: seq<ReportRow>, n: nat)
    requires Sorted(s) && n <= |s|
    ensures forall x, y :: x in s[..n] && y in s[n..] ==> Le(x, y)
  {
    forall x, y | x in s[..n] && y in s[n..] ensures Le(x, y) {
      var i :| 0 <= i < n && s[i] == x;
      var j :| n <= j < |s| && s[j] == y;
      SortedMeans(s, i, j);
    }
  }

  // ---------- the first rows of a whole ----------

  /** The rows that come no later than y. */
  ghost function Early(s: seq<ReportRow>, y: ReportRow): multiset<ReportRow> {
    if s == [] then multiset{} else (if Le(s[0], y) then multiset{s[0]} else multiset{}) + Early(s[1..], y)
  }

  /** Of g only rows are left out before which k others come that are kept. */
  ghost predicate Holds(k: nat, a: seq<ReportRow>, g: seq<ReportRow>) {
    multiset(a) <= multiset(g) && forall y :: multiset(a)[y] < multiset(g)[y] ==> k <= |Early(a, y)|
  }

  /** These are the first k rows of g in the report order. Where rows tie there may be several
      such lists; a sort, stable or not, ends with one of them. */
  ghost predicate IsTop(k: nat, rows: seq<ReportRow>, g: seq<ReportRow>) {
    && Sorted(rows) && multiset(rows) <= multiset(g) && |rows| == (if |g| < k then |g| else k)
    && forall x, y :: x in rows && multiset(rows)[y] < multiset(g)[y] ==> Le(x, y)
  }

  lemma SizeGrows<T>(a: multiset<T>, b: multiset<T>)
    requires a <= b
    ensures |a| <= |b| && (|a| == |b| ==> a == b)
  {
    assert b == a + (b - a);
    if |b - a| == 0 { assert b - a == multiset{}; }
  }

  lemma {:induction false} EarlyCounts(s: seq<ReportRow>, y: ReportRow, x: ReportRow)
    ensures Early(s, y)[x] == if Le(x, y) then multiset(s)[x] else 0
  {
    if s != [] {
      EarlyCounts(s[1..], y, x);
      assert s == [s[0]] + s[1..];
    }
  }

  lemma {:induction false} EarlyAtMost(s: seq<ReportRow>, y: ReportRow)
    ensures |Early(s, y)| <= |s|
  {
    if s != [] {
      EarlyAtMost(s[1..], y);
    }
  }

  /** Before y come at most as many rows as stand before the first that does not. */
  lemma {:induction false} LateFew(s: seq<ReportRow>, y: ReportRow, i: nat)
    requires Sorted(s) && i < |s| && !Le(s[i], y)
    ensures |Early(s, y)| <= i
  {
    if i > 0 {
      LateFew(s[1..], y, i - 1);
    } else if |s| > 1 {
      if Le(s[1], y) { LeTransitive(s[0], s[1], y); }
      LateFew(s[1..], y, 0);
    }
  }

  lemma {:induction false} EarlyMany(s: seq<ReportRow>, y: ReportRow, n: nat)
    requires n <= |s| && forall j :: 0 <= j < n ==> Le(s[j], y)
    ensures n <= |Early(s, y)|
  {
    if n > 0 {
      EarlyMany(s[1..], y, n - 1);
    }
  }

  /** What comes no later than y is the same or more, if none of it is left out. */
  lemma EarlyWithin(a: seq<ReportRow>, b: seq<ReportRow>, y: ReportRow)
    requires forall z :: Le(z, y) ==> multiset(a)[z] <= multiset(b)[z]
    ensures |Early(a, y)| <= |Early(b, y)|
  {
    forall z ensures Early(a, y)[z] <= Early(b, y)[z] {
      EarlyCounts(a, y, z);
      EarlyCounts(b, y, z);
    }
    SizeGrows(Early(a, y), Early(b, y));
  }

  lemma EarlyJoins(a: seq<ReportRow>, b: seq<ReportRow>, y: ReportRow)
    ensures Early(a + b, y) == Early(a, y) + Early(b, y)
  {
    forall z ensures Early(a + b, y)[z] == Early(a, y)[z] + Early(b, y)[z] {
      EarlyCounts(a + b, y, z);
      EarlyCounts(a, y, z);
      EarlyCounts(b, y, z);
    }
  }

  /** Parts that hold the first k of theirs hold the first k of the whole. */
  lemma HoldsJoin(k: nat, a: seq<ReportRow>, g: seq<ReportRow>, b: seq<ReportRow>, h: seq<ReportRow>)
    requires Holds(k, a, g) && Holds(k, b, h)
    ensures Holds(k, a + b, g + h)
  {
    forall y | multiset(a + b)[y] < multiset(g + h)[y] ensures k <= |Early(a + b, y)| {
      EarlyJoins(a, b, y);
    }
  }

  lemma HoldsCut(k: nat, kept: seq<ReportRow>, cut: seq<ReportRow>)
    requires forall y :: y in cut ==> k <= |Early(kept, y)|
    ensures Holds(k, kept, kept + cut)
  {
    forall y | multiset(kept)[y] < multiset(kept + cut)[y] ensures k <= |Early(kept, y)| {
      assert y in multiset(cut);
    }
  }

  lemma TopHolds(k: nat, rows: seq<ReportRow>, g: seq<ReportRow>)
    requires IsTop(k, rows, g)
    ensures Holds(k, rows, g)
  {
    forall y | multiset(rows)[y] < multiset(g)[y] ensures k <= |Early(rows, y)| {
      SizeGrows(multiset(rows), multiset(g));
      EarlyMany(rows, y, |rows|);
    }
  }

  /** Sorting and cutting leaves the first k, whichever sort it is. */
  lemma SortedTop(k: nat, s: seq<ReportRow>, g: seq<ReportRow>)
    requires Sorted(s) && multiset(s) == multiset(g)
    ensures IsTop(k, Take(k, s), g)
  {
    var rows := Take(k, s);
    TakeSorted(k, s);
    assert |multiset(s)| == |multiset(g)|;
    if |s| > k {
      assert s == s[..k] + s[k..];
      SortedSplits(s, k);
      forall y | multiset(rows)[y] < multiset(g)[y] ensures y in s[k..] {
        assert y in multiset(s[k..]);
      }
    }
  }

  /** The first k of a part that holds the first k are those of the whole. */
  lemma TopOfHeld(k: nat, rows: seq<ReportRow>, a: seq<ReportRow>, g: seq<ReportRow>)
    requires IsTop(k, rows, a) && Holds(k, a, g)
    ensures IsTop(k, rows, g)
  {
    HeldLength(k, a, g);
    forall x, y | x in rows && multiset(rows)[y] < multiset(g)[y] ensures Le(x, y) {
      if multiset(rows)[y] == multiset(a)[y] && !Le(x, y) {
        var i :| 0 <= i < |rows| && rows[i] == x;
        forall z | Le(z, y) ensures multiset(a)[z] <= multiset(rows)[z] {
          if multiset(rows)[z] < multiset(a)[z] { LeTransitive(x, z, y); }
        }
        EarlyWithin(a, rows, y);
        LateFew(rows, y, i);
      }
    }
  }

  lemma HeldLength(k: nat, a: seq<ReportRow>, g: seq<ReportRow>)
    requires Holds(k, a, g)
    ensures |a| <= |g| && (|a| < k ==> |a| == |g|)
  {
    SizeGrows(multiset(a), multiset(g));
    assert |multiset(a)| == |a| && |multiset(g)| == |g|;
    if |a| < |g| {
      var rest := Without(a, g);
      assert |multiset(a) + multiset(rest)| == |g|;
      assert rest[0] in multiset(rest);
      EarlyAtMost(a, rest[0]);
    }
  }

  lemma NotBehind(k: nat, r: seq<ReportRow>, s: seq<ReportRow>, g: seq<ReportRow>, i: nat)
    requires IsTop(k, r, g) && IsTop(k, s, g) && i < |r|
    ensures Le(r[i], s[i])
  {
    if !Le(r[i], s[i]) {
      var y := s[i];
      forall z | Le(z, y) ensures multiset(s)[z] <= multiset(r)[z] {
        if multiset(r)[z] < multiset(g)[z] { LeTransitive(r[i], z, y); }
      }
      EarlyWithin(s, r, y);
      LateFew(r, y, i);
      forall j | 0 <= j < i + 1 ensures Le(s[j], y) { SortedMeans(s, j, i); }
      EarlyMany(s, y, i + 1);
    }
  }

  /** Whichever list of first rows it is, at each place it shows the same bytes, connections,
      source and key. */
  lemma TopShows(k: nat, r: seq<ReportRow>, s: seq<ReportRow>, g: seq<ReportRow>)
    requires IsTop(k, r, g) && IsTop(k, s, g)
    ensures |r| == |s| && forall i :: 0 <= i < |r| ==> PlaceOf(r[i]) == PlaceOf(s[i])
  {
    forall i | 0 <= i < |r| ensures PlaceOf(r[i]) == PlaceOf(s[i]) {
      NotBehind(k, r, s, g, i);
      NotBehind(k, s, r, g, i);
      LeTotal(r[i], s[i]);
    }
  }

  /** No two rows tie. */
  predicate Untied(s: seq<ReportRow>) { forall i, j :: 0 <= i < j < |s| ==> PlaceOf(s[i]) != PlaceOf(s[j]) }

  /** Where no two rows tie there is one list of first rows. */
  lemma TopUnique(k: nat, r: seq<ReportRow>, s: seq<ReportRow>, g: seq<ReportRow>)
    requires IsTop(k, r, g) && IsTop(k, s, g) && Untied(g)
    ensures r == s
  {
    TopShows(k, r, s, g);
    forall i | 0 <= i < |r| ensures r[i] == s[i] {
      assert r[i] in multiset(g) && s[i] in multiset(g);
      var m :| 0 <= m < |g| && g[m] == r[i];
      var n :| 0 <= n < |g| && g[n] == s[i];
    }
  }

  /** Every sort, stable or not, shows the same at each place, and where no two rows tie it
      ends with the same list. */
  lemma SortUnique(s: seq<ReportRow>, t: seq<ReportRow>)
    requires multiset(s) == multiset(t) && Sorted(t)
    ensures |t| == |SortRows(s)| && forall i :: 0 <= i < |t| ==> PlaceOf(t[i]) == PlaceOf(SortRows(s)[i])
    ensures Untied(s) ==> t == SortRows(s)
  {
    SortSorts(s);
    assert |multiset(s)| == |multiset(t)|;
    SortedTop(|s|, t, s);
    SortedTop(|s|, SortRows(s), s);
    TopShows(|s|, t, SortRows(s), s);
    if Untied(s) { TopUnique(|s|, t, SortRows(s), s); }
  }

  // ---------- rows under other names ----------

  function Mapped(f: ReportRow -> ReportRow, s: seq<ReportRow>): seq<ReportRow> {
    seq(|s|, i requires 0 <= i < |s| => f(s[i]))
  }

  /** The first row of a list, found in a permutation of it and taken out of both. */
  lemma Found(s: seq<ReportRow>, t: seq<ReportRow>) returns (p: seq<ReportRow>, r: seq<ReportRow>)
    requires multiset(s) == multiset(t) && s != []
    ensures t == p + [s[0]] + r && multiset(p + r) == multiset(s[1..])
  {
    assert s[0] in multiset(t);
    var i :| 0 <= i < |t| && t[i] == s[0];
    p, r := t[..i], t[i + 1..];
    assert s == [s[0]] + s[1..];
    assert t == p + [s[0]] + r;
    assert multiset(s) == multiset{s[0]} + multiset(s[1..]);
    assert multiset(t) == multiset(p) + multiset{s[0]} + multiset(r);
    assert multiset(p + r) == multiset(p) + multiset(r);
    assert multiset(p) + multiset(r) == multiset(t) - multiset{s[0]};
    assert multiset(s[1..]) == multiset(s) - multiset{s[0]};
  }

  lemma MappedJoins(f: ReportRow -> ReportRow, a: seq<ReportRow>, b: seq<ReportRow>)
    ensures Mapped(f, a + b) == Mapped(f, a) + Mapped(f, b)
    ensures multiset(Mapped(f, a + b)) == multiset(Mapped(f, a)) + multiset(Mapped(f, b))
  {
    assert Mapped(f, a + b) == Mapped(f, a) + Mapped(f, b);
  }

  lemma MappedMiddle(f: ReportRow -> ReportRow, a: seq<ReportRow>, x: ReportRow, b: seq<ReportRow>)
    ensures multiset(Mapped(f, a + [x] + b)) == multiset(Mapped(f, a + b)) + multiset{f(x)}
  {
    MappedJoins(f, a + [x], b);
    MappedJoins(f, a, [x]);
    MappedJoins(f, a, b);
    assert Mapped(f, [x]) == [f(x)];
  }

  lemma {:induction false} MappedPermutes(f: ReportRow -> ReportRow, a: seq<ReportRow>, b: seq<ReportRow>)
    requires multiset(a) == multiset(b)
    ensures multiset(Mapped(f, a)) == multiset(Mapped(f, b))
    decreases |a|
  {
    if a == [] {
      assert |multiset(b)| == 0;
    } else {
      var p, r := Found(a, b);
      MappedPermutes(f, a[1..], p + r);
      MappedMiddle(f, p, a[0], r);
      MappedMiddle(f, [], a[0], a[1..]);
      assert a == [] + [a[0]] + a[1..] && [] + a[1..] == a[1..];
    }
  }

  /** What is left of a list without some of its rows. */
  lemma {:induction false} Without(part: seq<ReportRow>, whole: seq<ReportRow>) returns (rest: seq<ReportRow>)
    requires multiset(part) <= multiset(whole)
    ensures multiset(part) + multiset(rest) == multiset(whole)
  {
    rest := whole;
    if part != [] {
      var x := part[0];
      assert part == [x] + part[1..];
      assert multiset(part) == multiset{x} + multiset(part[1..]);
      assert x in multiset(whole);
      var i :| 0 <= i < |whole| && whole[i] == x;
      var others := whole[..i] + whole[i + 1..];
      assert whole == whole[..i] + [x] + whole[i + 1..];
      assert multiset(whole) == multiset{x} + multiset(others);
      forall z ensures multiset(part[1..])[z] <= multiset(others)[z] {
        assert multiset(part)[z] <= multiset(whole)[z];
      }
      rest := Without(part[1..], others);
    }
  }

  lemma {:induction false} SortedIff(s: seq<ReportRow>)
    ensures Sorted(s) <==> forall i :: 0 <= i < |s| - 1 ==> Le(s[i], s[i + 1])
  {
    if |s| > 1 {
      SortedIff(s[1..]);
    }
  }

  /** Members keep their order under the names. */
  ghost predicate KeepsOrder(f: ReportRow -> ReportRow, g: seq<ReportRow>) {
    forall x, y {:trigger x in g, y in g} :: x in g && y in g && Le(x, y) ==> Le(f(x), f(y))
  }

  lemma MappedSorted(f: ReportRow -> ReportRow, s: seq<ReportRow>)
    requires Sorted(s) && KeepsOrder(f, s)
    ensures Sorted(Mapped(f, s))
  {
    SortedIff(s);
    SortedIff(Mapped(f, s));
    forall i | 0 <= i < |s| - 1 ensures Le(Mapped(f, s)[i], Mapped(f, s)[i + 1]) {
      assert s[i] in s && s[i + 1] in s;
    }
  }

  /** Names that keep the order keep the first rows. */
  lemma MappedTop(k: nat, f: ReportRow -> ReportRow, rows: seq<ReportRow>, g: seq<ReportRow>)
    requires IsTop(k, rows, g) && KeepsOrder(f, g)
    ensures IsTop(k, Mapped(f, rows), Mapped(f, g))
  {
    var rest := Without(rows, g);
    MappedPermutes(f, g, rows + rest);
    MappedJoins(f, rows, rest);
    forall x | x in rows || x in rest ensures x in g {
      assert x in multiset(g);
    }
    MappedSorted(f, rows);
    assert forall y :: y in rest ==> multiset(rows)[y] < multiset(g)[y] by {
      forall y | y in rest ensures multiset(rows)[y] < multiset(g)[y] { assert y in multiset(rest); }
    }
    MappedBefore(f, rows, rest, g);
  }

  lemma MappedBefore(f: ReportRow -> ReportRow, rows: seq<ReportRow>, rest: seq<ReportRow>, g: seq<ReportRow>)
    requires KeepsOrder(f, g) && (forall x :: x in rows || x in rest ==> x in g) && forall x, y :: x in rows && y in rest ==> Le(x, y)
    ensures forall x, y :: x in Mapped(f, rows) && y in Mapped(f, rest) ==> Le(x, y)
  {
    forall x, y | x in Mapped(f, rows) && y in Mapped(f, rest) ensures Le(x, y) {
      var i :| 0 <= i < |rows| && f(rows[i]) == x;
      var j :| 0 <= j < |rest| && f(rest[j]) == y;
      assert rows[i] in g && rest[j] in g;
    }
  }

  /** A label names its source and key, when sources contain no NUL. */
  lemma LabelSplit(a: string, x: string, b: string, y: string)
    requires '\0' !in a && '\0' !in b && a + "\0" + x == b + "\0" + y
    ensures a == b && x == y
  {
    var s, t := a + "\0" + x, b + "\0" + y;
    assert s[|a|] == '\0' && t[|b|] == '\0';
    assert forall i :: 0 <= i < |a| ==> s[i] == a[i];
    assert forall i :: 0 <= i < |b| ==> t[i] == b[i];
    assert |a| == |b|;
    assert a == s[..|a|] && b == t[..|b|] && x == s[|a| + 1..] && y == t[|b| + 1..];
  }
}
