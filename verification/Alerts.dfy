/** The alert table and its sessions. */
module Alerts {

  // Rows are raised for crossed thresholds, claimed, posted and finished by notifier sessions.
  // Instants are milliseconds.

  datatype State = Pending | Sending | Failed | Sent | Superseded

  /** The identifier of an alert is a digest of exactly these. The day is its first instant. */
  datatype Key = Key(source: string, day: int, tier: int)

  /** noted is the attempt count inside the stored payload. */
  datatype Row = Row(state: State, attempts: nat, noted: nat, next: int, lease: int, created: int)

  type Table = map<Key, Row>

  const MAX_ATTEMPTS: nat := 6
  const LEASE: int := 120_000
  const SESSION: int := 25_000
  const QUEUE: nat := 4

  // ---------- raising ----------

  /** The last threshold crossed, in the order given, or the tier so far. */
  function Tier(up: int, thresholds: seq<int>, tier: int): int {
    if thresholds == [] then tier
    else Tier(up, thresholds[1..], if up >= thresholds[0] * 0x4000_0000 then thresholds[0] else tier)
  }

  predicate AtMost(x: int, ts: seq<int>) { forall y :: y in ts ==> x <= y }

  predicate Ascending(ts: seq<int>) { ts == [] || (AtMost(ts[0], ts[1..]) && Ascending(ts[1..])) }

  predicate AllPositive(ts: seq<int>) { forall y :: y in ts ==> 0 < y }

  function Insert(x: int, s: seq<int>): seq<int> {
    if s == [] || x <= s[0] then [x] + s else [s[0]] + Insert(x, s[1..])
  }

  function Sort(s: seq<int>): seq<int> { if s == [] then [] else Insert(s[0], Sort(s[1..])) }

  function Thresholds(configured: seq<int>): seq<int> {
    Sort(if configured == [] then [20, 50, 100] else configured)
  }

  predicate OfDay(k: Key, source: string, day: int) { k.source == source && k.day == day }

  /** COALESCE(MAX(threshold), 0) over the rows of one source and day. */
  ghost predicate IsHighest(keys: set<Key>, source: string, day: int, h: int) {
    && (forall k :: k in keys && OfDay(k, source, day) ==> k.tier <= h)
    && (h == 0 || exists k :: k in keys && OfDay(k, source, day) && k.tier == h)
    && 0 <= h
  }

  ghost function Highest(keys: set<Key>, source: string, day: int): int {
    if exists h :: IsHighest(keys, source, day, h) then var h :| IsHighest(keys, source, day, h); h else 0
  }

  lemma HighestUnique(keys: set<Key>, source: string, day: int, h: int)
    requires IsHighest(keys, source, day, h)
    ensures Highest(keys, source, day) == h
  {
    var g := Highest(keys, source, day);
    assert IsHighest(keys, source, day, g);
  }

  function Supersede(t: Table, source: string, day: int): Table {
    map k | k in t :: if OfDay(k, source, day) && (t[k].state.Pending? || t[k].state.Failed?) then t[k].(state := Superseded) else t[k]
  }

  datatype Reading = Reading(source: string, up: int)

  ghost function Raise(t: Table, at: int, day: int, r: Reading, thresholds: seq<int>): Table {
    var tier := Tier(r.up, thresholds, 0);
    if tier == 0 || tier <= Highest(t.Keys, r.source, day) then t
    else Supersede(t, r.source, day)[Key(r.source, day, tier) := Row(Pending, 0, 0, 0, 0, at)]
  }

  ghost function RaiseAll(t: Table, at: int, day: int, rs: seq<Reading>, thresholds: seq<int>): Table
    decreases |rs|
  {
    if rs == [] then t else RaiseAll(Raise(t, at, day, rs[0], thresholds), at, day, rs[1..], thresholds)
  }

  // ---------- delivering ----------

  predicate Due(r: Row, nextAsOf: int, leaseAsOf: int) {
    && r.attempts < MAX_ATTEMPTS && r.next <= nextAsOf
    && (r.state.Pending? || r.state.Failed? || (r.state.Sending? && r.lease < leaseAsOf))
  }

  /** An alert as a session's query read it. */
  datatype Snap = Snap(key: Key, attempts: nat)

  function Claimed(t: Table, s: Snap, leaseFrom: int): Table
    requires s.key in t
  {
    t[s.key := t[s.key].(state := Sending, attempts := s.attempts + 1, noted := s.attempts + 1, lease := leaseFrom + LEASE)]
  }

  function Power(n: nat): int { if n == 0 then 1 else 2 * Power(n - 1) }

  /** One minute, doubling with every attempt, capped at 64. */
  function Backoff(attempts: nat): int {
    Power(if attempts < 1 then 0 else if attempts - 1 < 6 then attempts - 1 else 6) * 60_000
  }

  function Finished(t: Table, key: Key, attempt: nat, ok: bool, at: int): Table {
    if key in t then
      t[key := t[key].(state := if ok then Sent else Failed, attempts := attempt, noted := attempt,
                       next := if ok then 0 else at + Backoff(attempt), lease := 0)]
    else t
  }

  lemma {:induction false} PowerPositive(n: nat)
    ensures 1 <= Power(n)
  {
    if n > 0 {
      PowerPositive(n - 1);
    }
  }

  lemma BackoffIsMinutes(attempts: nat)
    ensures 60_000 <= Backoff(attempts) <= 64 * 60_000
    ensures 1 <= attempts <= 6 ==> Backoff(attempts + 1) == 2 * Backoff(attempts)
  {
    PowerPositive(if attempts < 1 then 0 else if attempts - 1 < 6 then attempts - 1 else 6);
    assert Power(0) == 1 && Power(1) == 2 && Power(2) == 4 && Power(3) == 8 && Power(4) == 16 && Power(5) == 32 && Power(6) == 64;
  }

  class AlertBook {
    var rows: Table

    constructor ()
      ensures rows == map[]
    {
      rows := map[];
    }

    method SelectHighest(source: string, day: int) returns (h: int)
      requires forall k :: k in rows ==> 0 < k.tier
      ensures h == Highest(rows.Keys, source, day)
    {
      h := 0;
      var left := rows.Keys;
      while left != {}
        invariant left <= rows.Keys && IsHighest(rows.Keys - left, source, day, h)
        decreases left
      {
        var k :| k in left;
        if OfDay(k, source, day) && k.tier > h {
          h := k.tier;
        }
        left := left - {k};
      }
      assert rows.Keys - left == rows.Keys;
      HighestUnique(rows.Keys, source, day, h);
    }

    /** Raise an alert for every source whose day crossed a higher threshold than before. */
    method Evaluate(at: int, day: int, readings: seq<Reading>, configured: seq<int>)
      requires (forall k :: k in rows ==> 0 < k.tier) && AllPositive(configured)
      modifies this
      ensures rows == RaiseAll(old(rows), at, day, readings, Thresholds(configured))
      ensures forall k :: k in rows ==> 0 < k.tier
    {
      var thresholds := Thresholds(configured);
      SortSorts(if configured == [] then [20, 50, 100] else configured);
      ghost var was := rows;
      for i := 0 to |readings|
        invariant forall k :: k in rows ==> 0 < k.tier
        invariant RaiseAll(rows, at, day, readings[i..], thresholds) == RaiseAll(was, at, day, readings, thresholds)
      {
        var r := readings[i];
        assert readings[i..][0] == r && readings[i..][1..] == readings[i + 1..];
        var tier := 0;
        for j := 0 to |thresholds|
          invariant Tier(r.up, thresholds[j..], tier) == Tier(r.up, thresholds, 0)
        {
          assert thresholds[j..][0] == thresholds[j] && thresholds[j..][1..] == thresholds[j + 1..];
          if r.up >= thresholds[j] * 0x4000_0000 {
            tier := thresholds[j];
          }
        }
        assert thresholds[|thresholds|..] == [];
        TierIsGreatest(r.up, thresholds, 0);
        if tier == 0 {
          continue;
        }
        var previous := SelectHighest(r.source, day);
        if tier <= previous {
          continue;
        }
        rows := Supersede(rows, r.source, day);
        rows := rows[Key(r.source, day, tier) := Row(Pending, 0, 0, 0, 0, at)];
      }
    }

    /** The claim: one conditional update. */
    method Claim(s: Snap, leaseFrom: int, nextAsOf: int, leaseAsOf: int) returns (claimed: bool)
      modifies this
      ensures claimed <==> s.key in old(rows) && Due(old(rows)[s.key], nextAsOf, leaseAsOf)
      ensures rows == if claimed then Claimed(old(rows), s, leaseFrom) else old(rows)
    {
      claimed := s.key in rows && Due(rows[s.key], nextAsOf, leaseAsOf);
      if claimed {
        rows := rows[s.key := rows[s.key].(state := Sending, attempts := s.attempts + 1, noted := s.attempts + 1, lease := leaseFrom + LEASE)];
      }
    }

    /** The result of a post, written without a condition. */
    method Finish(key: Key, attempt: nat, ok: bool, at: int)
      modifies this
      ensures rows == Finished(old(rows), key, attempt, ok, at)
    {
      var next := 0;
      if !ok {
        next := at + Backoff(attempt);
      }
      if key in rows {
        rows := rows[key := rows[key].(state := if ok then Sent else Failed, attempts := attempt, noted := attempt, next := next, lease := 0)];
      }
    }
  }

  // ---------- thresholds ----------

  lemma {:induction false} InsertSorted(x: int, s: seq<int>)
    requires Ascending(s)
    ensures Ascending(Insert(x, s)) && forall y :: y in Insert(x, s) <==> y == x || y in s
  {
    if s == [] {
    } else if x <= s[0] {
      assert ([x] + s)[1..] == s && s == [s[0]] + s[1..];
    } else {
      InsertSorted(x, s[1..]);
      assert ([s[0]] + Insert(x, s[1..]))[1..] == Insert(x, s[1..]);
    }
  }

  lemma {:induction false} SortSorts(s: seq<int>)
    ensures Ascending(Sort(s)) && (forall y :: y in Sort(s) <==> y in s)
  {
    if s != [] {
      SortSorts(s[1..]);
      InsertSorted(s[0], Sort(s[1..]));
    }
  }

  /** With sorted positive thresholds the tier is the greatest one crossed, and zero exactly
      when none is. */
  lemma {:induction false} TierIsGreatest(up: int, ts: seq<int>, tier: int)
    requires Ascending(ts) && AtMost(tier, ts)
    ensures var t := Tier(up, ts, tier);
            && tier <= t && (t == tier || (t in ts && up >= t * 0x4000_0000))
            && forall y :: y in ts && up >= y * 0x4000_0000 ==> y <= t
    decreases |ts|
  {
    if ts != [] {
      assert ts == [ts[0]] + ts[1..] && ts[0] in ts;
      assert AtMost(tier, ts[1..]);
      TierIsGreatest(up, ts[1..], if up >= ts[0] * 0x4000_0000 then ts[0] else tier);
    }
  }
}
