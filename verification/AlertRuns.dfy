/** Any number of notifier sessions on one alert table and one clock. */
module AlertRuns {
  import opened Alerts

  /** A claimed alert: the attempt it was claimed for, when, and whether it was posted. */
  datatype Work = Idle | Holding(key: Key, attempt: nat, claimedAt: int, posted: bool)

  /** A session lives at most 25 seconds from its start. */
  datatype Session = Session(start: int, queue: seq<Snap>, work: Work)

  datatype Post = Post(key: Key, attempt: nat)

  /** now is the shared clock; floor is the highest retention cutoff so far; claims and
      posts record every claim and every request ever made. */
  datatype World = World(now: int, floor: int, rows: Table, sessions: map<nat, Session>, claims: map<Key, nat>, posts: multiset<Post>)

  datatype Step =
    | Tick(to: int)
    | Evaluate(at: int, readings: seq<Reading>, configured: seq<int>)
    | Prune(cutoff: int)
    | Open(id: nat, start: int, asOf: int, queue: seq<Snap>)
    | Skip(id: nat)
    | Claim(id: nat, leaseFrom: int, nextAsOf: int, leaseAsOf: int)
    | Send(id: nat)
    | Finish(id: nat, ok: bool, at: int)
    | Close(id: nat)

  predicate Live(w: World, id: nat) { id in w.sessions && w.now <= w.sessions[id].start + SESSION }

  predicate Holds(w: World, id: nat, key: Key) {
    Live(w, id) && w.sessions[id].work.Holding? && w.sessions[id].work.key == key
  }

  function ClaimsOf(w: World, key: Key): nat { if key in w.claims then w.claims[key] else 0 }

  /** The answer of the queue query: at most four alerts due, as their payloads have them. */
  predicate Queued(t: Table, asOf: int, queue: seq<Snap>) {
    && |queue| <= QUEUE
    && forall i :: 0 <= i < |queue| ==> queue[i].key in t && Due(t[queue[i].key], asOf, asOf) && queue[i].attempts == t[queue[i].key].noted
  }

  /** What the program and the shared clock allow. Every reading of the clock is at most
      now and, within a session, at least the session's start; a session acts only within
      its 25 seconds; days are evaluated no later than retention forgets them. */
  predicate Enabled(w: World, day: int -> int, s: Step) {
    match s
    case Tick(to) => w.now <= to
    case Evaluate(at, readings, configured) => at <= w.now && w.floor <= day(at) <= at && AllPositive(configured)
    case Prune(cutoff) => true
    case Open(id, start, asOf, queue) => id !in w.sessions && start <= asOf <= w.now <= start + SESSION && Queued(w.rows, asOf, queue)
    case Skip(id) => Live(w, id) && w.sessions[id].work.Idle? && w.sessions[id].queue != []
    case Claim(id, leaseFrom, nextAsOf, leaseAsOf) =>
      && Live(w, id) && w.sessions[id].work.Idle? && w.sessions[id].queue != [] && w.sessions[id].queue[0].attempts < MAX_ATTEMPTS
      && w.sessions[id].start <= leaseFrom <= w.now && nextAsOf <= w.now && leaseAsOf <= w.now
    case Send(id) => Live(w, id) && w.sessions[id].work.Holding? && !w.sessions[id].work.posted
    case Finish(id, ok, at) =>
      Live(w, id) && w.sessions[id].work.Holding? && w.sessions[id].work.claimedAt <= at <= w.now && (ok ==> w.sessions[id].work.posted)
    case Close(id) => id in w.sessions
  }

  ghost function Next(w: World, day: int -> int, s: Step): World
    requires Enabled(w, day, s)
  {
    match s
    case Tick(to) => w.(now := to)
    case Evaluate(at, readings, configured) => w.(rows := RaiseAll(w.rows, at, day(at), readings, Thresholds(configured)))
    case Prune(cutoff) =>
      w.(rows := map k | k in w.rows && cutoff <= w.rows[k].created :: w.rows[k], floor := if w.floor < cutoff then cutoff else w.floor)
    case Open(id, start, asOf, queue) => w.(sessions := w.sessions[id := Session(start, queue, Idle)])
    case Skip(id) => w.(sessions := w.sessions[id := w.sessions[id].(queue := w.sessions[id].queue[1..])])
    case Claim(id, leaseFrom, nextAsOf, leaseAsOf) =>
      var session := w.sessions[id];
      var snap := session.queue[0];
      var rest := session.(queue := session.queue[1..]);
      if snap.key in w.rows && Due(w.rows[snap.key], nextAsOf, leaseAsOf) then
        w.(rows := Claimed(w.rows, snap, leaseFrom),
           sessions := w.sessions[id := rest.(work := Holding(snap.key, snap.attempts + 1, w.now, false))],
           claims := w.claims[snap.key := ClaimsOf(w, snap.key) + 1])
      else w.(sessions := w.sessions[id := rest])
    case Send(id) =>
      var work := w.sessions[id].work;
      w.(sessions := w.sessions[id := w.sessions[id].(work := work.(posted := true))],
         posts := w.posts + multiset{Post(work.key, work.attempt)})
    case Finish(id, ok, at) =>
      var work := w.sessions[id].work;
      w.(rows := Finished(w.rows, work.key, work.attempt, ok, at),
         sessions := w.sessions[id := w.sessions[id].(work := Idle)])
    case Close(id) => w.(sessions := w.sessions - {id})
  }

  // ---------- the invariant ----------

  /** No claim of this row can succeed up to the deadline. */
  predicate Blocked(r: Row, deadline: int) {
    match r.state
    case Sent => true
    case Superseded => true
    case Pending => r.next > deadline
    case Failed => r.next > deadline
    case Sending => r.lease >= deadline
  }

  /** Rows: the payload agrees with the columns, the count with the claims ever made, the
      key with the day it was raised on. */
  predicate RowsSound(w: World) {
    forall k :: k in w.rows ==>
      && w.rows[k].noted == w.rows[k].attempts == ClaimsOf(w, k) <= MAX_ATTEMPTS
      && 0 < k.tier && k.day <= w.rows[k].created
  }

  /** Keys once claimed are still there or too old to come back. */
  predicate ClaimsSound(w: World) {
    forall k :: k in w.claims ==> w.claims[k] <= MAX_ATTEMPTS && (k in w.rows || k.day < w.floor)
  }

  /** A live holder's row is its own: sending, at its attempt, leased past its deadline. */
  predicate HolderSound(w: World, id: nat)
    requires id in w.sessions && w.sessions[id].work.Holding?
  {
    var s := w.sessions[id];
    && s.work.claimedAt <= w.now && 1 <= s.work.attempt <= ClaimsOf(w, s.work.key)
    && (Live(w, id) && s.work.key in w.rows ==>
          w.rows[s.work.key].state.Sending? && w.rows[s.work.key].attempts == s.work.attempt && w.rows[s.work.key].lease >= s.start + LEASE)
    && (Live(w, id) && !s.work.posted ==> Post(s.work.key, s.work.attempt) !in w.posts)
  }

  ghost predicate HoldersSound(w: World) {
    forall id {:trigger HolderSound(w, id)} :: id in w.sessions && w.sessions[id].work.Holding? ==> HolderSound(w, id)
  }

  /** A waiting snapshot still has the row's count, or the row is out of its reach. */
  predicate SnapSound(rows: Table, floor: int, deadline: int, snap: Snap) {
    if snap.key in rows then rows[snap.key].attempts == snap.attempts || Blocked(rows[snap.key], deadline)
    else snap.key.day < floor
  }

  predicate QueueSound(w: World, id: nat)
    requires id in w.sessions
  {
    var s := w.sessions[id];
    s.start <= w.now && (Live(w, id) ==> forall snap :: snap in s.queue ==> SnapSound(w.rows, w.floor, s.start + SESSION, snap))
  }

  ghost predicate QueuesSound(w: World) { forall id {:trigger QueueSound(w, id)} :: id in w.sessions ==> QueueSound(w, id) }

  /** A snapshot that lost its row to a holder is older than the holder's claim. */
  predicate Older(s: Session, holder: Session)
    requires holder.work.Holding?
  {
    forall snap :: snap in s.queue && snap.key == holder.work.key && snap.attempts != holder.work.attempt ==> s.start <= holder.work.claimedAt
  }

  ghost predicate Outdated(w: World) {
    forall id, other {:trigger Older(w.sessions[id], w.sessions[other])} ::
      id in w.sessions && Live(w, other) && w.sessions[other].work.Holding? ==> Older(w.sessions[id], w.sessions[other])
  }

  ghost predicate Exclusive(w: World) { forall a, b, key :: Holds(w, a, key) && Holds(w, b, key) ==> a == b }

  ghost predicate PostsSound(w: World) {
    forall p :: p in w.posts ==> w.posts[p] == 1 && 1 <= p.attempt <= ClaimsOf(w, p.key)
  }

  ghost predicate Sound(w: World) {
    RowsSound(w) && ClaimsSound(w) && HoldersSound(w) && QueuesSound(w) && Outdated(w) && Exclusive(w) && PostsSound(w)
  }

  // ---------- steps that start no work ----------

  predicate SameWork(a: Work, b: Work) {
    b.Idle? || (a.Holding? && b == a.(posted := b.posted))
  }

  /** Sessions only close, shorten their queues, post or finish. */
  predicate Quieter(w: World, w': World) {
    && w.now <= w'.now
    && forall id :: id in w'.sessions ==>
         && id in w.sessions && w'.sessions[id].start == w.sessions[id].start && SameWork(w.sessions[id].work, w'.sessions[id].work)
         && forall snap :: snap in w'.sessions[id].queue ==> snap in w.sessions[id].queue
  }

  lemma QuieterExclusive(w: World, w': World)
    requires Quieter(w, w') && Exclusive(w)
    ensures Exclusive(w')
  {
    forall a, b, key | Holds(w', a, key) && Holds(w', b, key) ensures a == b {
      assert Holds(w, a, key) && Holds(w, b, key);
    }
  }

  lemma QuieterOutdated(w: World, w': World)
    requires Quieter(w, w') && Outdated(w)
    ensures Outdated(w')
  {
    forall id, other | id in w'.sessions && Live(w', other) && w'.sessions[other].work.Holding?
      ensures Older(w'.sessions[id], w'.sessions[other])
    {
      assert Older(w.sessions[id], w.sessions[other]);
    }
  }

  /** Queues stay sound when every snapshot does. */
  lemma QuieterQueues(w: World, w': World)
    requires Quieter(w, w') && QueuesSound(w)
    requires forall id, snap :: Live(w', id) && snap in w'.sessions[id].queue && SnapSound(w.rows, w.floor, w'.sessions[id].start + SESSION, snap) ==>
               SnapSound(w'.rows, w'.floor, w'.sessions[id].start + SESSION, snap)
    ensures QueuesSound(w')
  {
    forall id | id in w'.sessions ensures QueueSound(w', id) {
      assert QueueSound(w, id);
    }
  }

  lemma QuietStep(w: World, w': World)
    requires Sound(w) && Quieter(w, w')
    requires w'.rows == w.rows && w'.floor == w.floor && w'.claims == w.claims && w'.posts == w.posts
    requires forall id :: id in w'.sessions ==> w'.sessions[id].work == w.sessions[id].work
    ensures Sound(w')
  {
    QuieterExclusive(w, w');
    QuieterOutdated(w, w');
    QuieterQueues(w, w');
    forall id | id in w'.sessions && w'.sessions[id].work.Holding? ensures HolderSound(w', id) {
      assert HolderSound(w, id);
    }
  }

  lemma PruneSound(w: World, day: int -> int, cutoff: int)
    requires Sound(w)
    ensures Sound(Next(w, day, Prune(cutoff)))
  {
    var w' := Next(w, day, Prune(cutoff));
    QuieterExclusive(w, w');
    QuieterOutdated(w, w');
    QuieterQueues(w, w');
    forall id | id in w'.sessions && w'.sessions[id].work.Holding? ensures HolderSound(w', id) {
      assert HolderSound(w, id);
    }
  }

  lemma OpenSound(w: World, day: int -> int, s: Step)
    requires Sound(w) && s.Open? && Enabled(w, day, s)
    ensures Sound(Next(w, day, s))
  {
    var w' := Next(w, day, s);
    forall a, b, key | Holds(w', a, key) && Holds(w', b, key) ensures a == b {
      assert Holds(w, a, key) && Holds(w, b, key);
    }
    forall id | id in w'.sessions && w'.sessions[id].work.Holding? ensures HolderSound(w', id) {
      assert HolderSound(w, id);
    }
    forall id | id in w'.sessions ensures QueueSound(w', id) {
      if id != s.id { assert QueueSound(w, id); }
    }
    forall id, other | id in w'.sessions && Live(w', other) && w'.sessions[other].work.Holding?
      ensures Older(w'.sessions[id], w'.sessions[other])
    {
      assert HolderSound(w, other);
      if id != s.id { assert Older(w.sessions[id], w.sessions[other]); }
    }
  }

  lemma SendSound(w: World, day: int -> int, id: nat)
    requires Sound(w) && Enabled(w, day, Send(id))
    ensures Sound(Next(w, day, Send(id)))
  {
    var w' := Next(w, day, Send(id));
    var work := w.sessions[id].work;
    QuieterExclusive(w, w');
    QuieterOutdated(w, w');
    QuieterQueues(w, w');
    assert HolderSound(w, id) && Holds(w, id, work.key);
    forall other | other in w'.sessions && w'.sessions[other].work.Holding? ensures HolderSound(w', other) {
      assert HolderSound(w, other);
      if other != id && Live(w, other) && w.sessions[other].work.key == work.key { assert Holds(w, other, work.key); }
    }
  }

  lemma FinishKeepsHolders(w: World, day: int -> int, s: Step)
    requires Sound(w) && s.Finish? && Enabled(w, day, s)
    ensures HoldersSound(Next(w, day, s))
  {
    var w' := Next(w, day, s);
    var work := w.sessions[s.id].work;
    assert HolderSound(w, s.id) && Holds(w, s.id, work.key);
    forall id | id in w'.sessions && w'.sessions[id].work.Holding? ensures HolderSound(w', id) {
      assert HolderSound(w, id);
      if Live(w, id) && w.sessions[id].work.key == work.key { assert Holds(w, id, work.key); }
    }
  }

  lemma FinishSound(w: World, day: int -> int, s: Step)
    requires Sound(w) && s.Finish? && Enabled(w, day, s)
    ensures Sound(Next(w, day, s))
  {
    var w' := Next(w, day, s);
    var work := w.sessions[s.id].work;
    assert HolderSound(w, s.id) && Holds(w, s.id, work.key);
    QuieterExclusive(w, w');
    QuieterOutdated(w, w');
    FinishKeepsQueues(w, day, s);
    FinishKeepsHolders(w, day, s);
  }

  /** A failed alert is not due again while any session that saw it before lives. */
  lemma FinishKeepsQueues(w: World, day: int -> int, s: Step)
    requires Sound(w) && s.Finish? && Enabled(w, day, s)
    ensures QueuesSound(Next(w, day, s))
  {
    var w' := Next(w, day, s);
    var work := w.sessions[s.id].work;
    assert HolderSound(w, s.id);
    BackoffIsMinutes(work.attempt);
    forall id, snap | Live(w', id) && snap in w'.sessions[id].queue && SnapSound(w.rows, w.floor, w'.sessions[id].start + SESSION, snap)
      ensures SnapSound(w'.rows, w'.floor, w'.sessions[id].start + SESSION, snap)
    {
      assert Older(w.sessions[id], w.sessions[s.id]);
    }
    QuieterQueues(w, w');
  }

  // ---------- claims ----------

  predicate Succeeds(w: World, s: Step)
    requires s.Claim? && s.id in w.sessions && w.sessions[s.id].queue != []
  {
    var snap := w.sessions[s.id].queue[0];
    snap.key in w.rows && Due(w.rows[snap.key], s.nextAsOf, s.leaseAsOf)
  }

  /** A claim succeeds only with a current snapshot and only when no session holds the alert. */
  lemma ClaimIsCurrent(w: World, day: int -> int, s: Step)
    requires Sound(w) && s.Claim? && Enabled(w, day, s) && Succeeds(w, s)
    ensures var snap := w.sessions[s.id].queue[0];
            && w.rows[snap.key].attempts == snap.attempts == ClaimsOf(w, snap.key)
            && forall other :: !Holds(w, other, snap.key)
  {
    var snap := w.sessions[s.id].queue[0];
    assert QueueSound(w, s.id) && snap in w.sessions[s.id].queue;
    forall other | Live(w, other) && w.sessions[other].work.Holding? ensures w.sessions[other].work.key != snap.key {
      assert HolderSound(w, other);
    }
  }

  lemma ClaimSound(w: World, day: int -> int, s: Step)
    requires Sound(w) && s.Claim? && Enabled(w, day, s) && Succeeds(w, s)
    ensures Sound(Next(w, day, s))
  {
    var w' := Next(w, day, s);
    ClaimIsCurrent(w, day, s);
    ClaimKeepsHolders(w, day, s);
    ClaimKeepsQueues(w, day, s);
    forall a, b, key | Holds(w', a, key) && Holds(w', b, key) ensures a == b {
      if a != s.id { assert Holds(w, a, key); }
      if b != s.id { assert Holds(w, b, key); }
    }
  }

  lemma ClaimKeepsHolders(w: World, day: int -> int, s: Step)
    requires Sound(w) && s.Claim? && Enabled(w, day, s) && Succeeds(w, s)
    ensures HoldersSound(Next(w, day, s))
  {
    var w' := Next(w, day, s);
    var snap := w.sessions[s.id].queue[0];
    ClaimIsCurrent(w, day, s);
    forall id | id in w'.sessions && w'.sessions[id].work.Holding? ensures HolderSound(w', id) {
      if id != s.id {
        assert HolderSound(w, id) && !Holds(w, id, snap.key);
      } else {
        assert Post(snap.key, snap.attempts + 1) !in w.posts;
      }
    }
  }

  lemma ClaimKeepsQueues(w: World, day: int -> int, s: Step)
    requires Sound(w) && s.Claim? && Enabled(w, day, s) && Succeeds(w, s)
    ensures QueuesSound(Next(w, day, s)) && Outdated(Next(w, day, s))
  {
    var w' := Next(w, day, s);
    assert forall snap :: snap in w'.sessions[s.id].queue ==> snap in w.sessions[s.id].queue;
    forall id | id in w'.sessions ensures QueueSound(w', id) {
      assert QueueSound(w, id) && QueueSound(w, s.id);
    }
    forall id, other | id in w'.sessions && Live(w', other) && w'.sessions[other].work.Holding?
      ensures Older(w'.sessions[id], w'.sessions[other])
    {
      assert QueueSound(w, id);
      if other != s.id { assert Older(w.sessions[id], w.sessions[other]); }
    }
  }

  // ---------- raising ----------

  lemma HighestFound(keys: set<Key>, source: string, day: int)
    requires forall k :: k in keys ==> 0 < k.tier
    ensures IsHighest(keys, source, day, Highest(keys, source, day))
  {
    var h := FindHighest(keys, source, day);
    assert IsHighest(keys, source, day, h);
  }

  lemma {:induction false} FindHighest(keys: set<Key>, source: string, day: int) returns (h: int)
    requires forall k :: k in keys ==> 0 < k.tier
    ensures IsHighest(keys, source, day, h)
    decreases keys
  {
    if keys == {} {
      h := 0;
    } else {
      var k :| k in keys;
      h := FindHighest(keys - {k}, source, day);
      if OfDay(k, source, day) && k.tier > h { h := k.tier; }
    }
  }

  /** What raising one alert does to the table, in terms of single rows. */
  lemma RaiseRows(t: Table, at: int, day: int, r: Reading, thresholds: seq<int>)
    requires (forall k :: k in t ==> 0 < k.tier) && Ascending(thresholds) && AllPositive(thresholds)
    ensures var t' := Raise(t, at, day, r, thresholds);
            && (forall k :: k in t ==> k in t' && (t'[k] == t[k] || ((t[k].state.Pending? || t[k].state.Failed?) && t'[k] == t[k].(state := Superseded))))
            && (forall k :: k in t' && k !in t ==>
                  && k.source == r.source && k.day == day && 0 < k.tier && t'[k] == Row(Pending, 0, 0, 0, 0, at)
                  && forall j :: j in t && OfDay(j, k.source, k.day) ==> j.tier < k.tier && !t'[j].state.Pending?)
  {
    TierIsGreatest(r.up, thresholds, 0);
    HighestFound(t.Keys, r.source, day);
  }

  lemma RaiseKeepsQueues(w: World, at: int, day: int, r: Reading, thresholds: seq<int>)
    requires RowsSound(w) && QueuesSound(w) && w.floor <= day && Ascending(thresholds) && AllPositive(thresholds)
    ensures QueuesSound(w.(rows := Raise(w.rows, at, day, r, thresholds)))
  {
    RaiseRows(w.rows, at, day, r, thresholds);
    QuieterQueues(w, w.(rows := Raise(w.rows, at, day, r, thresholds)));
  }

  lemma RaiseKeepsHolders(w: World, at: int, day: int, r: Reading, thresholds: seq<int>)
    requires RowsSound(w) && ClaimsSound(w) && HoldersSound(w) && w.floor <= day && Ascending(thresholds) && AllPositive(thresholds)
    ensures HoldersSound(w.(rows := Raise(w.rows, at, day, r, thresholds)))
  {
    var w' := w.(rows := Raise(w.rows, at, day, r, thresholds));
    RaiseRows(w.rows, at, day, r, thresholds);
    forall id | id in w'.sessions && w'.sessions[id].work.Holding? ensures HolderSound(w', id) {
      assert HolderSound(w, id);
    }
  }

  lemma RaiseKeepsRows(w: World, at: int, day: int, r: Reading, thresholds: seq<int>)
    requires RowsSound(w) && ClaimsSound(w) && w.floor <= day <= at && Ascending(thresholds) && AllPositive(thresholds)
    ensures RowsSound(w.(rows := Raise(w.rows, at, day, r, thresholds))) && ClaimsSound(w.(rows := Raise(w.rows, at, day, r, thresholds)))
  {
    RaiseRows(w.rows, at, day, r, thresholds);
  }

  lemma RaiseSound(w: World, at: int, day: int, r: Reading, thresholds: seq<int>)
    requires Sound(w) && w.floor <= day <= at && Ascending(thresholds) && AllPositive(thresholds)
    ensures Sound(w.(rows := Raise(w.rows, at, day, r, thresholds)))
  {
    var w' := w.(rows := Raise(w.rows, at, day, r, thresholds));
    RaiseKeepsRows(w, at, day, r, thresholds);
    RaiseKeepsHolders(w, at, day, r, thresholds);
    RaiseKeepsQueues(w, at, day, r, thresholds);
    QuieterExclusive(w, w');
    QuieterOutdated(w, w');
  }

  lemma {:induction false} RaiseAllSound(w: World, at: int, day: int, rs: seq<Reading>, thresholds: seq<int>)
    requires Sound(w) && w.floor <= day <= at && Ascending(thresholds) && AllPositive(thresholds)
    ensures Sound(w.(rows := RaiseAll(w.rows, at, day, rs, thresholds)))
    decreases |rs|
  {
    if rs != [] {
      RaiseSound(w, at, day, rs[0], thresholds);
      RaiseAllSound(w.(rows := Raise(w.rows, at, day, rs[0], thresholds)), at, day, rs[1..], thresholds);
    }
  }

  // ---------- runs ----------

  lemma StepSound(w: World, day: int -> int, s: Step)
    requires Sound(w) && Enabled(w, day, s)
    ensures Sound(Next(w, day, s))
  {
    var w' := Next(w, day, s);
    match s
    case Tick(to) => QuietStep(w, w');
    case Evaluate(at, readings, configured) =>
      SortSorts(if configured == [] then [20, 50, 100] else configured);
      RaiseAllSound(w, at, day(at), readings, Thresholds(configured));
    case Prune(cutoff) => PruneSound(w, day, cutoff);
    case Open(_, _, _, _) => OpenSound(w, day, s);
    case Skip(id) => QuietStep(w, w');
    case Claim(_, _, _, _) => if Succeeds(w, s) { ClaimSound(w, day, s); } else { QuietStep(w, w'); }
    case Send(id) => SendSound(w, day, id);
    case Finish(_, _, _) => FinishSound(w, day, s);
    case Close(id) => QuietStep(w, w');
  }

  ghost predicate AllEnabled(w0: World, day: int -> int, steps: seq<Step>)
    decreases |steps|, 0
  {
    steps == [] ||
    (AllEnabled(w0, day, steps[..|steps| - 1]) && Enabled(Run(w0, day, steps[..|steps| - 1]), day, steps[|steps| - 1]))
  }

  ghost function Run(w0: World, day: int -> int, steps: seq<Step>): World
    requires AllEnabled(w0, day, steps)
    decreases |steps|, 1
  {
    if steps == [] then w0 else Next(Run(w0, day, steps[..|steps| - 1]), day, steps[|steps| - 1])
  }

  /** An empty table, no session, no claim and no post yet. */
  predicate Initial(w: World) {
    w.rows == map[] && w.sessions == map[] && w.claims == map[] && w.posts == multiset{}
  }

  lemma {:induction false} RunSound(w0: World, day: int -> int, steps: seq<Step>)
    requires Initial(w0) && AllEnabled(w0, day, steps)
    ensures Sound(Run(w0, day, steps))
  {
    if steps != [] {
      RunSound(w0, day, steps[..|steps| - 1]);
      StepSound(Run(w0, day, steps[..|steps| - 1]), day, steps[|steps| - 1]);
    }
  }

  /** The requests made for an alert in its first n attempts. */
  function PostsUpTo(posts: multiset<Post>, key: Key, n: nat): nat {
    if n == 0 then 0 else PostsUpTo(posts, key, n - 1) + posts[Post(key, n)]
  }

  lemma {:induction false} PostsWithinClaims(w: World, key: Key, n: nat)
    requires PostsSound(w)
    ensures PostsUpTo(w.posts, key, n) <= n && PostsUpTo(w.posts, key, n) <= ClaimsOf(w, key)
  {
    if n > 0 {
      PostsWithinClaims(w, key, n - 1);
      var p := Post(key, n);
      if p !in w.posts { assert w.posts[p] == 0; } else { PostsWithinAttempts(w, key, n - 1); }
    }
  }

  lemma {:induction false} PostsWithinAttempts(w: World, key: Key, n: nat)
    requires PostsSound(w)
    ensures PostsUpTo(w.posts, key, n) <= n
  {
    if n > 0 {
      PostsWithinAttempts(w, key, n - 1);
      var p := Post(key, n);
      if p !in w.posts { assert w.posts[p] == 0; }
    }
  }

  /** In every run, with any number of sessions that come and go: no two sessions hold the
      same alert at once, the stored attempt count is the number of claims ever made, and
      no alert is claimed or posted more than six times. */
  lemma NotifiersAreSafe(w0: World, day: int -> int, steps: seq<Step>)
    requires Initial(w0) && AllEnabled(w0, day, steps)
    ensures var w := Run(w0, day, steps);
            && (forall a, b, key :: Holds(w, a, key) && Holds(w, b, key) ==> a == b)
            && (forall k :: k in w.rows ==> w.rows[k].attempts == w.rows[k].noted == ClaimsOf(w, k))
            && (forall key :: PostsUpTo(w.posts, key, 6) <= ClaimsOf(w, key) <= 6)
            && (forall p :: p in w.posts ==> 1 <= p.attempt <= 6)
  {
    RunSound(w0, day, steps);
    var w := Run(w0, day, steps);
    forall key ensures PostsUpTo(w.posts, key, 6) <= ClaimsOf(w, key) <= 6 {
      PostsWithinClaims(w, key, 6);
    }
  }

  /** A holder that finishes writes its own row: no other session has claimed it since. */
  lemma FinishWritesOwnRow(w0: World, day: int -> int, steps: seq<Step>, s: Step)
    requires Initial(w0) && AllEnabled(w0, day, steps) && s.Finish? && Enabled(Run(w0, day, steps), day, s)
    ensures var w := Run(w0, day, steps);
            var work := w.sessions[s.id].work;
            work.key in w.rows ==> w.rows[work.key].state.Sending? && w.rows[work.key].attempts == work.attempt
  {
    RunSound(w0, day, steps);
    assert HolderSound(Run(w0, day, steps), s.id);
  }

  predicate Terminal(r: Row) { r.state.Sent? || r.state.Superseded? }

  lemma {:induction false} RaiseAllRows(t: Table, at: int, day: int, rs: seq<Reading>, thresholds: seq<int>)
    requires (forall k :: k in t ==> 0 < k.tier) && Ascending(thresholds) && AllPositive(thresholds)
    ensures var t' := RaiseAll(t, at, day, rs, thresholds);
            && (forall k :: k in t ==> k in t' && (Terminal(t[k]) ==> t'[k] == t[k]) && (t'[k].state.Pending? ==> t[k].state.Pending?))
            && (forall k :: k in t' && k !in t ==> 0 < k.tier && forall j :: j in t && OfDay(j, k.source, k.day) ==> j.tier < k.tier)
    decreases |rs|
  {
    if rs != [] {
      RaiseRows(t, at, day, rs[0], thresholds);
      RaiseAllRows(Raise(t, at, day, rs[0], thresholds), at, day, rs[1..], thresholds);
    }
  }

  /** Sent and superseded are never left, whatever stale session writes. */
  lemma TerminalIsFinal(w0: World, day: int -> int, steps: seq<Step>, s: Step, k: Key)
    requires Initial(w0) && AllEnabled(w0, day, steps) && Enabled(Run(w0, day, steps), day, s)
    requires k in Run(w0, day, steps).rows && Terminal(Run(w0, day, steps).rows[k])
    ensures var w' := Next(Run(w0, day, steps), day, s);
            k in w'.rows ==> w'.rows[k].state == Run(w0, day, steps).rows[k].state
  {
    var w := Run(w0, day, steps);
    RunSound(w0, day, steps);
    match s
    case Evaluate(at, readings, configured) =>
      SortSorts(if configured == [] then [20, 50, 100] else configured);
      RaiseAllRows(w.rows, at, day(at), readings, Thresholds(configured));
    case Finish(id, _, _) => assert HolderSound(w, id);
    case Tick(_) =>
    case Prune(_) =>
    case Open(_, _, _, _) =>
    case Skip(_) =>
    case Claim(_, _, _, _) =>
    case Send(_) =>
    case Close(_) =>
  }

  /** An alert is only ever raised above all of its source and day so far. */
  lemma TiersRise(w0: World, day: int -> int, steps: seq<Step>, s: Step, k: Key)
    requires Initial(w0) && AllEnabled(w0, day, steps) && Enabled(Run(w0, day, steps), day, s)
    requires k in Next(Run(w0, day, steps), day, s).rows && k !in Run(w0, day, steps).rows
    ensures s.Evaluate? && forall j :: j in Run(w0, day, steps).rows && OfDay(j, k.source, k.day) ==> j.tier < k.tier
  {
    var w := Run(w0, day, steps);
    RunSound(w0, day, steps);
    if s.Evaluate? {
      SortSorts(if s.configured == [] then [20, 50, 100] else s.configured);
      RaiseAllRows(w.rows, s.at, day(s.at), s.readings, Thresholds(s.configured));
    }
  }

  predicate OnePending(t: Table) {
    forall j, k :: j in t && k in t && t[j].state.Pending? && t[k].state.Pending? && OfDay(j, k.source, k.day) ==> j == k
  }

  lemma {:induction false} RaiseAllOnePending(t: Table, at: int, day: int, rs: seq<Reading>, thresholds: seq<int>)
    requires (forall k :: k in t ==> 0 < k.tier) && Ascending(thresholds) && AllPositive(thresholds) && OnePending(t)
    ensures OnePending(RaiseAll(t, at, day, rs, thresholds))
    decreases |rs|
  {
    if rs != [] {
      RaiseRows(t, at, day, rs[0], thresholds);
      RaiseAllOnePending(Raise(t, at, day, rs[0], thresholds), at, day, rs[1..], thresholds);
    }
  }

  lemma StepOnePending(w: World, day: int -> int, s: Step)
    requires RowsSound(w) && OnePending(w.rows) && Enabled(w, day, s)
    ensures OnePending(Next(w, day, s).rows)
  {
    if s.Evaluate? {
      SortSorts(if s.configured == [] then [20, 50, 100] else s.configured);
      RaiseAllOnePending(w.rows, s.at, day(s.at), s.readings, Thresholds(s.configured));
    }
  }

  /** At most one alert of a source and day waits for its first attempt: a reconnecting
      notifier is not flooded. */
  lemma {:induction false} RunOnePending(w0: World, day: int -> int, steps: seq<Step>)
    requires Initial(w0) && AllEnabled(w0, day, steps)
    ensures OnePending(Run(w0, day, steps).rows)
  {
    if steps != [] {
      RunOnePending(w0, day, steps[..|steps| - 1]);
      RunSound(w0, day, steps[..|steps| - 1]);
      StepOnePending(Run(w0, day, steps[..|steps| - 1]), day, steps[|steps| - 1]);
    }
  }
}
