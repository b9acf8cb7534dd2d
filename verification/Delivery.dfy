/** What the notifiers get done: which alerts count as sent, and when the others come up again. */
module Delivery {
  import opened Alerts
  import opened AlertRuns

  // ---------- sent ----------

  /** The step finishes a request for this alert with success, and the request was made. */
  predicate Delivers(w: World, s: Step, k: Key) {
    && s.Finish? && s.ok && s.id in w.sessions
    && w.sessions[s.id].work.Holding? && w.sessions[s.id].work.key == k && w.sessions[s.id].work.posted
  }

  ghost predicate Delivered(w0: World, day: int -> int, steps: seq<Step>, k: Key)
    requires AllEnabled(w0, day, steps)
  {
    steps != [] &&
    (var before := steps[..|steps| - 1];
     Delivered(w0, day, before, k) || Delivers(Run(w0, day, before), steps[|steps| - 1], k))
  }

  lemma EvaluateRows(w: World, day: int -> int, s: Step)
    requires Sound(w) && s.Evaluate? && Enabled(w, day, s)
    ensures var rows := Next(w, day, s).rows;
            && (forall k :: k in w.rows ==> k in rows && (Terminal(w.rows[k]) ==> rows[k] == w.rows[k]))
            && (forall k :: k in rows && k !in w.rows ==> k.day == day(s.at))
            && (forall k :: k in rows && (k !in w.rows || rows[k] != w.rows[k]) ==> rows[k].state.Pending? || rows[k].state.Superseded?)
            && (forall k :: k in rows && k in w.rows && rows[k] != w.rows[k] ==> rows[k] == w.rows[k].(state := Superseded))
  {
    SortSorts(if s.configured == [] then [20, 50, 100] else s.configured);
    RaisedRows(w.rows, s.at, day(s.at), s.readings, Thresholds(s.configured));
  }

  lemma {:induction false} RaisedRows(t: Table, at: int, day: int, rs: seq<Reading>, thresholds: seq<int>)
    requires (forall k :: k in t ==> 0 < k.tier) && Ascending(thresholds) && AllPositive(thresholds)
    ensures var rows := RaiseAll(t, at, day, rs, thresholds);
            && (forall k :: k in t ==> k in rows && (rows[k] == t[k] || (rows[k] == t[k].(state := Superseded) && !Terminal(t[k]))))
            && (forall k :: k in rows && k !in t ==> k.day == day && (rows[k].state.Pending? || rows[k].state.Superseded?))
    decreases |rs|
  {
    if rs != [] {
      RaiseRows(t, at, day, rs[0], thresholds);
      RaisedRows(Raise(t, at, day, rs[0], thresholds), at, day, rs[1..], thresholds);
    }
  }

  lemma StepSent(w: World, day: int -> int, s: Step, k: Key)
    requires Sound(w) && Enabled(w, day, s) && k in Next(w, day, s).rows && k in w.rows
    ensures Next(w, day, s).rows[k].state.Sent? <==> w.rows[k].state.Sent? || Delivers(w, s, k)
  {
    if s.Evaluate? { EvaluateRows(w, day, s); }
    if s.Finish? { assert HolderSound(w, s.id); }
  }

  /** Who was delivered was claimed, and so is still there or too old to be raised again. */
  lemma DeliveryClaims(w: World, day: int -> int, s: Step, k: Key)
    requires Sound(w) && Enabled(w, day, s)
    ensures k in w.claims || Delivers(w, s, k) ==> k in Next(w, day, s).claims
  {
    if Delivers(w, s, k) { assert HolderSound(w, s.id); }
  }

  lemma {:induction false} DeliveredClaims(w0: World, day: int -> int, steps: seq<Step>, k: Key)
    requires Initial(w0) && AllEnabled(w0, day, steps)
    ensures Delivered(w0, day, steps, k) ==> k in Run(w0, day, steps).claims
  {
    if steps != [] {
      var before := steps[..|steps| - 1];
      DeliveredClaims(w0, day, before, k);
      RunSound(w0, day, before);
      DeliveryClaims(Run(w0, day, before), day, steps[|steps| - 1], k);
    }
  }

  lemma RaisedIsNew(w: World, day: int -> int, s: Step, k: Key)
    requires Sound(w) && Enabled(w, day, s) && k in Next(w, day, s).rows && k !in w.rows
    ensures k !in w.claims && !Next(w, day, s).rows[k].state.Sent? && !Delivers(w, s, k)
  {
    assert s.Evaluate?;
    EvaluateRows(w, day, s);
  }

  /** In every run an alert is marked as sent exactly when a session that had posted it
      finished it with success. */
  lemma {:induction false} SentIffDelivered(w0: World, day: int -> int, steps: seq<Step>, k: Key)
    requires Initial(w0) && AllEnabled(w0, day, steps) && k in Run(w0, day, steps).rows
    ensures Run(w0, day, steps).rows[k].state.Sent? <==> Delivered(w0, day, steps, k)
  {
    if steps != [] {
      var before, s := steps[..|steps| - 1], steps[|steps| - 1];
      var w := Run(w0, day, before);
      RunSound(w0, day, before);
      if k in w.rows {
        SentIffDelivered(w0, day, before, k);
        StepSent(w, day, s, k);
      } else {
        DeliveredClaims(w0, day, before, k);
        RaisedIsNew(w, day, s, k);
      }
    }
  }

  // ---------- failed, and due again ----------

  /** How long a failed alert waits after its n-th attempt, in milliseconds. */
  function Wait(n: nat): int {
    match n
    case 1 => 60_000
    case 2 => 120_000
    case 3 => 240_000
    case 4 => 480_000
    case 5 => 960_000
    case _ => 1_920_000
  }

  lemma BackoffIsWait(n: nat)
    requires 1 <= n <= 6
    ensures Backoff(n) == Wait(n)
  {
    assert Power(0) == 1 && Power(1) == 2 && Power(2) == 4 && Power(3) == 8 && Power(4) == 16 && Power(5) == 32;
  }

  /** What a failing finish writes. */
  lemma FailureIsNoted(w: World, day: int -> int, s: Step)
    requires Sound(w) && s.Finish? && Enabled(w, day, s) && w.sessions[s.id].work.key in w.rows
    ensures var work := w.sessions[s.id].work;
            var row := Next(w, day, s).rows[work.key];
            && row.attempts == w.rows[work.key].attempts == work.attempt == ClaimsOf(w, work.key) <= MAX_ATTEMPTS
            && (s.ok ==> row.state.Sent?)
            && (!s.ok ==> row.state.Failed? && row.next == s.at + Wait(work.attempt))
            && forall k :: k in w.rows && k != work.key ==> k in Next(w, day, s).rows && Next(w, day, s).rows[k] == w.rows[k]
  {
    var work := w.sessions[s.id].work;
    assert HolderSound(w, s.id);
    assert w.rows[work.key].attempts == ClaimsOf(w, work.key);
    BackoffIsWait(work.attempt);
  }

  /** A failed alert that no session has claimed since is as it was, unless a higher tier
      superseded it. */
  lemma StepKeepsFailed(w: World, day: int -> int, s: Step, k: Key)
    requires Sound(w) && Enabled(w, day, s) && k in w.rows && w.rows[k].state.Failed? && k in Next(w, day, s).rows
    ensures var w' := Next(w, day, s);
            || w'.rows[k] == w.rows[k] || w'.rows[k].state.Superseded?
            || ClaimsOf(w', k) > ClaimsOf(w, k)
  {
    if s.Evaluate? { EvaluateRows(w, day, s); }
    if s.Finish? { assert HolderSound(w, s.id); }
  }

  lemma ClaimsGrow(w: World, day: int -> int, s: Step, k: Key)
    requires Enabled(w, day, s)
    ensures ClaimsOf(w, k) <= ClaimsOf(Next(w, day, s), k)
  {}

  lemma SupersededStays(w: World, day: int -> int, s: Step, k: Key)
    requires Sound(w) && Enabled(w, day, s) && k in w.rows && w.rows[k].state.Superseded? && k in Next(w, day, s).rows
    ensures Next(w, day, s).rows[k].state.Superseded?
  {
    if s.Evaluate? { EvaluateRows(w, day, s); }
    if s.Finish? { assert HolderSound(w, s.id); }
  }

  /** Claimed again, superseded, gone for good, or as it was. */
  predicate Since(w: World, w': World, k: Key)
    requires k in w.rows
  {
    && k in w'.claims && ClaimsOf(w, k) <= ClaimsOf(w', k)
    && (k in w'.rows && ClaimsOf(w', k) == ClaimsOf(w, k) ==> w'.rows[k] == w.rows[k] || w'.rows[k].state.Superseded?)
  }

  lemma StepSince(w: World, v: World, day: int -> int, s: Step, k: Key)
    requires Sound(v) && Enabled(v, day, s) && k in w.rows && w.rows[k].state.Failed? && Since(w, v, k)
    ensures Since(w, Next(v, day, s), k)
  {
    var v' := Next(v, day, s);
    ClaimsGrow(v, day, s, k);
    if k in v'.rows && ClaimsOf(v', k) == ClaimsOf(w, k) {
      if k !in v.rows {
        RaisedIsNew(v, day, s, k);
      } else if v.rows[k].state.Superseded? {
        SupersededStays(v, day, s, k);
      } else {
        StepKeepsFailed(v, day, s, k);
      }
    }
  }

  lemma {:induction false} RunSince(w0: World, day: int -> int, steps: seq<Step>, more: seq<Step>, k: Key)
    requires Initial(w0) && AllEnabled(w0, day, steps + more) && AllEnabled(w0, day, steps)
    requires k in Run(w0, day, steps).rows && Run(w0, day, steps).rows[k].state.Failed? && k in Run(w0, day, steps).claims
    ensures Since(Run(w0, day, steps), Run(w0, day, steps + more), k)
    decreases |more|
  {
    if more == [] {
      assert steps + more == steps;
    } else {
      var before := more[..|more| - 1];
      assert (steps + more)[..|steps + more| - 1] == steps + before;
      assert (steps + more)[|steps + more| - 1] == more[|more| - 1];
      RunSince(w0, day, steps, before, k);
      RunSound(w0, day, steps + before);
      StepSince(Run(w0, day, steps), Run(w0, day, steps + before), day, more[|more| - 1], k);
    }
  }

  /** The alert comes up in the queue, and can be claimed, from this instant on. */
  ghost predicate DueFrom(w: World, day: int -> int, k: Key, attempt: nat, from: int) {
    && (forall asOf :: Queued(w.rows, asOf, [Snap(k, attempt)]) <==> attempt < MAX_ATTEMPTS && from <= asOf)
    && forall c: Step :: c.Claim? && Enabled(w, day, c) && w.sessions[c.id].queue[0] == Snap(k, attempt) ==>
         (Holds(Next(w, day, c), c.id, k) <==> attempt < MAX_ATTEMPTS && from <= c.nextAsOf)
  }

  lemma FailedIsDue(w: World, day: int -> int, k: Key)
    requires k in w.rows && w.rows[k].state.Failed? && w.rows[k].noted == w.rows[k].attempts
    ensures DueFrom(w, day, k, w.rows[k].attempts, w.rows[k].next)
  {
    var snap := Snap(k, w.rows[k].attempts);
    forall asOf ensures Queued(w.rows, asOf, [snap]) <==> snap.attempts < MAX_ATTEMPTS && w.rows[k].next <= asOf {
      assert [snap][0] == snap;
    }
  }

  /** An alert whose request failed keeps its count of attempts and, below six of them, comes
      up again a minute, then two, four, eight and sixteen minutes later: at each instant from
      then on, until it is claimed, superseded by a higher tier, or removed. */
  lemma FailedComesUpAgain(w0: World, day: int -> int, steps: seq<Step>, s: Step, more: seq<Step>)
    requires Initial(w0) && AllEnabled(w0, day, steps) && AllEnabled(w0, day, steps + [s]) && AllEnabled(w0, day, steps + [s] + more)
    requires s.Finish? && !s.ok && Enabled(Run(w0, day, steps), day, s)
    requires Run(w0, day, steps).sessions[s.id].work.key in Run(w0, day, steps).rows
    ensures var work := Run(w0, day, steps).sessions[s.id].work;
            var w := Run(w0, day, steps + [s] + more);
            && work.attempt == Run(w0, day, steps).rows[work.key].attempts
            && (work.key in w.rows && ClaimsOf(w, work.key) == work.attempt && !w.rows[work.key].state.Superseded? ==>
                  && w.rows[work.key].state.Failed? && w.rows[work.key].attempts == work.attempt
                  && DueFrom(w, day, work.key, work.attempt, s.at + Wait(work.attempt)))
  {
    var work := Run(w0, day, steps).sessions[s.id].work;
    var w := Run(w0, day, steps + [s] + more);
    assert (steps + [s])[..|steps|] == steps;
    RunSound(w0, day, steps);
    RunSound(w0, day, steps + [s] + more);
    FailureIsNoted(Run(w0, day, steps), day, s);
    assert HolderSound(Run(w0, day, steps), s.id);
    RunSince(w0, day, steps + [s], more, work.key);
    if work.key in w.rows && ClaimsOf(w, work.key) == work.attempt && !w.rows[work.key].state.Superseded? { FailedIsDue(w, day, work.key); }
  }

  // ---------- claimed, and the session gone ----------

  /** A claimed alert comes up again, whoever holds it, two minutes after its claim. */
  lemma ClaimLeases(w: World, day: int -> int, s: Step, asOf: int)
    requires Sound(w) && s.Claim? && Enabled(w, day, s) && Succeeds(w, s)
    ensures var snap := w.sessions[s.id].queue[0];
            var w' := Next(w, day, s);
            && Holds(w', s.id, snap.key) && w'.sessions[s.id].work.attempt == w.rows[snap.key].attempts + 1
            && w'.rows[snap.key].attempts == w.rows[snap.key].attempts + 1 == ClaimsOf(w, snap.key) + 1
            && (Queued(w'.rows, asOf, [Snap(snap.key, snap.attempts + 1)]) <==>
                  snap.attempts + 1 < MAX_ATTEMPTS && w.rows[snap.key].next <= asOf && s.leaseFrom + 120_000 < asOf)
  {
    var snap := w.sessions[s.id].queue[0];
    ClaimIsCurrent(w, day, s);
    assert [Snap(snap.key, snap.attempts + 1)][0] == Snap(snap.key, snap.attempts + 1);
  }

  /** Retention removes the alerts raised before its cutoff, and no other. */
  lemma PruneRemoves(w: World, day: int -> int, cutoff: int, k: Key)
    ensures var rows := Next(w, day, Prune(cutoff)).rows;
            (k in rows <==> k in w.rows && cutoff <= w.rows[k].created) && (k in rows ==> rows[k] == w.rows[k])
  {}

  // ---------- raised ----------

  predicate Waits(r: Row) { r.state == Pending || r.state == Failed }

  function Configured(configured: seq<int>): seq<int> { if configured == [] then [20, 50, 100] else configured }

  /** A day's traffic has reached this many GiB. */
  predicate Crosses(r: Reading, tier: int) { r.up >= tier * 1_073_741_824 }

  /** Below an alert raised since t0, no alert of its source and day waits. */
  predicate OnlyHighestWaits(t0: Table, t: Table) {
    forall j, k :: j in t && k in t && k !in t0 && j.source == k.source && j.day == k.day && j.tier < k.tier ==> !Waits(t[j])
  }

  /** Alerts of the day are superseded if they waited and a higher one came; nothing else changes. */
  predicate Changes(t0: Table, t: Table, at: int, day: int) {
    && (forall j :: j in t0 ==> j in t && (t[j] == t0[j] || (Waits(t0[j]) && t[j] == t0[j].(state := Superseded))))
    && (forall j :: j in t0 && t[j] != t0[j] ==> exists k :: k in t && k !in t0 && k.source == j.source && k.day == j.day)
    && forall k :: k in t && k !in t0 ==> k.day == day && t[k].(state := Pending) == Row(Pending, 0, 0, 0, 0, at) && !t[k].state.Failed? && !t[k].state.Sent? && !t[k].state.Sending?
  }

  predicate Raised(t0: Table, t: Table, rs: seq<Reading>, ts: seq<int>) {
    forall k :: k in t && k !in t0 ==> k.tier in ts && exists i :: 0 <= i < |rs| && rs[i].source == k.source && Crosses(rs[i], k.tier)
  }

  /** A crossed tier has its alert, or a higher one has. */
  predicate Answered(t: Table, day: int, r: Reading, tier: int) {
    exists k :: k in t && k.source == r.source && k.day == day && tier <= k.tier
  }

  lemma RaiseAnswers(t: Table, at: int, day: int, r: Reading, ts: seq<int>)
    requires (forall k :: k in t ==> 0 < k.tier) && Ascending(ts) && AllPositive(ts)
    ensures forall tier :: tier in ts && Crosses(r, tier) ==> Answered(Raise(t, at, day, r, ts), day, r, tier)
    ensures forall k :: k in Raise(t, at, day, r, ts) && k !in t ==> k.source == r.source && k.day == day && k.tier in ts && Crosses(r, k.tier)
  {
    TierIsGreatest(r.up, ts, 0);
    HighestFound(t.Keys, r.source, day);
    var tier := Tier(r.up, ts, 0);
    if tier != 0 {
      if tier <= Highest(t.Keys, r.source, day) {
        var k :| k in t && OfDay(k, r.source, day) && k.tier == Highest(t.Keys, r.source, day);
        assert k in Raise(t, at, day, r, ts);
      } else {
        assert Key(r.source, day, tier) in Raise(t, at, day, r, ts);
      }
    }
  }

  /** t' is t with one alert raised above all of its source and day, those that waited superseded. */
  ghost predicate OneRaised(t: Table, t': Table, at: int, raised: Key) {
    && raised !in t && raised in t' && t'[raised] == Row(Pending, 0, 0, 0, 0, at)
    && (forall k :: k in t' <==> k in t || k == raised)
    && (forall k :: k in t && k.source == raised.source && k.day == raised.day ==> k.tier < raised.tier)
    && forall k :: k in t ==>
         t'[k] == if k.source == raised.source && k.day == raised.day && Waits(t[k]) then t[k].(state := Superseded) else t[k]
  }

  lemma RaiseMeans(t: Table, at: int, day: int, r: Reading, ts: seq<int>)
    requires (forall k :: k in t ==> 0 < k.tier) && Ascending(ts) && AllPositive(ts)
    ensures var t' := Raise(t, at, day, r, ts);
            t' == t || exists tier :: OneRaised(t, t', at, Key(r.source, day, tier))
  {
    RaiseRows(t, at, day, r, ts);
    if Raise(t, at, day, r, ts) != t {
      HighestFound(t.Keys, r.source, day);
      assert OneRaised(t, Raise(t, at, day, r, ts), at, Key(r.source, day, Tier(r.up, ts, 0)));
    }
  }

  predicate Within(t0: Table, t: Table) { forall k :: k in t0 ==> k in t }

  lemma OneKeepsHighest(t0: Table, t: Table, t': Table, at: int, raised: Key)
    requires Within(t0, t) && OnlyHighestWaits(t0, t) && OneRaised(t, t', at, raised)
    ensures OnlyHighestWaits(t0, t')
  {
    forall j, k | j in t' && k in t' && k !in t0 && j.source == k.source && j.day == k.day && j.tier < k.tier ensures !Waits(t'[j]) {
      if k != raised { assert j != raised; }
    }
  }

  lemma OneKeepsChanges(t0: Table, t: Table, t': Table, at: int, raised: Key)
    requires Within(t0, t) && Changes(t0, t, at, raised.day) && OneRaised(t, t', at, raised)
    ensures Changes(t0, t', at, raised.day)
  {
    forall j | j in t0 && t'[j] != t0[j] ensures exists k :: k in t' && k !in t0 && k.source == j.source && k.day == j.day {
      if t[j] != t0[j] {
        var k :| k in t && k !in t0 && k.source == j.source && k.day == j.day;
        assert k in t';
      } else {
        assert raised in t' && raised !in t0;
      }
    }
  }

  lemma RaiseKeeps(t0: Table, t: Table, at: int, day: int, r: Reading, ts: seq<int>)
    requires (forall k :: k in t ==> 0 < k.tier) && Ascending(ts) && AllPositive(ts)
    requires Within(t0, t) && OnlyHighestWaits(t0, t) && Changes(t0, t, at, day)
    ensures var t' := Raise(t, at, day, r, ts); Within(t, t') && Within(t0, t') && OnlyHighestWaits(t0, t') && Changes(t0, t', at, day)
  {
    var t' := Raise(t, at, day, r, ts);
    RaiseMeans(t, at, day, r, ts);
    if t' != t {
      var tier :| OneRaised(t, t', at, Key(r.source, day, tier));
      OneKeepsHighest(t0, t, t', at, Key(r.source, day, tier));
      OneKeepsChanges(t0, t, t', at, Key(r.source, day, tier));
    }
  }

  lemma {:induction false} RaiseAllKeeps(t0: Table, t: Table, at: int, day: int, rs: seq<Reading>, ts: seq<int>)
    requires (forall k :: k in t ==> 0 < k.tier) && Ascending(ts) && AllPositive(ts)
    requires Within(t0, t) && OnlyHighestWaits(t0, t) && Changes(t0, t, at, day)
    ensures var t' := RaiseAll(t, at, day, rs, ts); Within(t, t') && OnlyHighestWaits(t0, t') && Changes(t0, t', at, day)
    decreases |rs|
  {
    if rs != [] {
      RaiseKeeps(t0, t, at, day, rs[0], ts);
      RaiseRows(t, at, day, rs[0], ts);
      RaiseAllKeeps(t0, Raise(t, at, day, rs[0], ts), at, day, rs[1..], ts);
    }
  }

  predicate AllAnswered(t: Table, day: int, rs: seq<Reading>, ts: seq<int>) {
    forall i, tier :: 0 <= i < |rs| && tier in ts && Crosses(rs[i], tier) ==> Answered(t, day, rs[i], tier)
  }

  lemma {:induction false} RaiseAllAnswers(t: Table, at: int, day: int, rs: seq<Reading>, ts: seq<int>)
    requires (forall k :: k in t ==> 0 < k.tier) && Ascending(ts) && AllPositive(ts)
    ensures AllAnswered(RaiseAll(t, at, day, rs, ts), day, rs, ts)
    decreases |rs|
  {
    if rs != [] {
      var next, t' := Raise(t, at, day, rs[0], ts), RaiseAll(t, at, day, rs, ts);
      RaiseRows(t, at, day, rs[0], ts);
      RaiseAnswers(t, at, day, rs[0], ts);
      RaiseAllAnswers(next, at, day, rs[1..], ts);
      RaiseAllRows(next, at, day, rs[1..], ts);
      forall i, tier | 0 <= i < |rs| && tier in ts && Crosses(rs[i], tier) ensures Answered(t', day, rs[i], tier) {
        if i == 0 {
          var k :| k in next && k.source == rs[0].source && k.day == day && tier <= k.tier;
          assert k in t';
        } else {
          assert rs[i] == rs[1..][i - 1];
        }
      }
    }
  }

  lemma {:induction false} RaiseAllRaises(t: Table, at: int, day: int, rs: seq<Reading>, ts: seq<int>)
    requires (forall k :: k in t ==> 0 < k.tier) && Ascending(ts) && AllPositive(ts)
    ensures Raised(t, RaiseAll(t, at, day, rs, ts), rs, ts)
    decreases |rs|
  {
    if rs != [] {
      var next, t' := Raise(t, at, day, rs[0], ts), RaiseAll(t, at, day, rs, ts);
      RaiseRows(t, at, day, rs[0], ts);
      RaiseAnswers(t, at, day, rs[0], ts);
      RaiseAllRaises(next, at, day, rs[1..], ts);
      forall k | k in t' && k !in t
        ensures k.tier in ts && exists i :: 0 <= i < |rs| && rs[i].source == k.source && Crosses(rs[i], k.tier)
      {
        if k in next {
          assert rs[0].source == k.source;
        } else {
          var i :| 0 <= i < |rs[1..]| && rs[1..][i].source == k.source && Crosses(rs[1..][i], k.tier);
          assert rs[i + 1] == rs[1..][i];
        }
      }
    }
  }

  /** After an evaluation every crossed threshold of a day has its alert or a higher one has;
      alerts are raised for crossed thresholds only; below a new alert none of its source and
      day waits any more, pending or failed; and no other row has changed. */
  lemma EvaluateMeans(w: World, day: int -> int, s: Step)
    requires Sound(w) && s.Evaluate? && Enabled(w, day, s)
    ensures var rows := Next(w, day, s).rows;
            var ts := Configured(s.configured);
            && AllAnswered(rows, day(s.at), s.readings, ts) && Raised(w.rows, rows, s.readings, ts) && OnlyHighestWaits(w.rows, rows) && Changes(w.rows, rows, s.at, day(s.at))
  {
    var ts := Thresholds(s.configured);
    SortSorts(Configured(s.configured));
    RaiseAllKeeps(w.rows, w.rows, s.at, day(s.at), s.readings, ts);
    RaiseAllAnswers(w.rows, s.at, day(s.at), s.readings, ts);
    RaiseAllRaises(w.rows, s.at, day(s.at), s.readings, ts);
    assert forall tier :: tier in ts <==> tier in Configured(s.configured);
  }
}
