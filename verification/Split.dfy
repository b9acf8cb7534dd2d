/** Cutting an interval at bucket boundaries. */
module Split {
  import opened Clock
  import opened Calendar

  datatype Piece = Piece(start: Time, end: Time, bucket: Time)

  /** One turn of the cutting loop: where the piece starting at t ends. */
  function Next(g: Grid, t: Time, end: Time): Time {
    Min(g.after(g.floor(t)), end)
  }

  /** The pieces of an interval. Where the cutting loop would stand still, which on a regular
      grid is nowhere, they end. */
  function Pieces(g: Grid, start: Time, end: Time): seq<Piece>
    decreases end - start
  {
    if start >= end || Next(g, start, end) <= start then []
    else [Piece(start, Next(g, start, end), g.floor(start))] + Pieces(g, Next(g, start, end), end)
  }

  /** No instant of the interval is the end of its own bucket. */
  ghost predicate Advancing(g: Grid, start: Time, end: Time) {
    forall t {:trigger g.floor(t)} :: start <= t < end ==> Progresses(g, t)
  }

  lemma TilingAdvances(g: Grid, start: Time, end: Time)
    requires Tiling(g)
    ensures Advancing(g, start, end)
  {
    forall t | start <= t < end ensures Progresses(g, t) {
      assert g.floor(t) <= t;
    }
  }

  /** The cutting loop. The callback of the source receives the pieces in this order. */
  method SplitInterval(days: Grid, res: Resolution, start: Time, end: Time) returns (pieces: seq<Piece>)
    requires Advancing(GridOf(days, res), start, end)
    ensures pieces == Pieces(GridOf(days, res), start, end)
  {
    var g := GridOf(days, res);
    pieces := [];
    var at := start;
    while at < end
      invariant start <= at && pieces + Pieces(g, at, end) == Pieces(g, start, end)
      decreases end - at
    {
      var bucket := g.floor(at);
      var next := g.after(bucket);
      if next > end {
        next := end;
      }
      pieces := pieces + [Piece(at, next, bucket)];
      at := next;
    }
  }

  /** The pieces tile the interval: they are non-empty, contiguous from its start to
      its end, and each lies in the bucket it is filed under. */
  lemma {:induction false} PiecesTile(g: Grid, start: Time, end: Time)
    requires Tiling(g) && start < end
    ensures var p := Pieces(g, start, end);
            && |p| > 0 && p[0].start == start && p[|p| - 1].end == end
            && (forall i :: 0 <= i < |p| - 1 ==> p[i].end == p[i + 1].start)
            && (forall i :: 0 <= i < |p| ==>
                  && start <= p[i].start < p[i].end <= end
                  && p[i].bucket == g.floor(p[i].start)
                  && p[i].bucket <= p[i].start && p[i].end <= g.after(p[i].bucket))
    decreases end - start
  {
    var n := Next(g, start, end);
    if n < end {
      PiecesTile(g, n, end);
    }
  }

  ghost predicate Rising(p: seq<Piece>) {
    forall i, j :: 0 <= i < j < |p| ==> p[i].bucket < p[j].bucket
  }

  /** No bucket receives two pieces of one interval. */
  lemma {:induction false} BucketsRise(g: Grid, start: Time, end: Time)
    requires Tiling(g)
    ensures Rising(Pieces(g, start, end))
    ensures forall p :: p in Pieces(g, start, end) ==> g.floor(start) <= p.bucket
    decreases end - start
  {
    if start < end {
      EndIsBoundary(g, start);
      BucketsRise(g, Next(g, start, end), end);
    }
  }

  /** The position after k turns of the loop, for any location. */
  function Position(g: Grid, start: Time, end: Time, k: nat): Time {
    if k == 0 then start
    else
      var t := Position(g, start, end, k - 1);
      if t < end then Next(g, t, end) else t
  }

  ghost predicate Terminates(g: Grid, start: Time, end: Time) {
    exists k: nat :: Position(g, start, end, k) >= end
  }

  ghost predicate NeverBack(g: Grid) {
    forall t {:trigger g.floor(t)} :: t <= g.after(g.floor(t))
  }

  predicate Progresses(g: Grid, t: Time) {
    t < g.after(g.floor(t))
  }

  ghost predicate NeverStuck(g: Grid, start: Time, end: Time) {
    forall k: nat :: Position(g, start, end, k) < end ==> Progresses(g, Position(g, start, end, k))
  }

  /** Later instants lie in buckets that end no earlier. */
  ghost predicate EndsRise(g: Grid) {
    forall t, u {:trigger g.floor(t), g.floor(u)} :: t <= u ==> g.after(g.floor(t)) <= g.after(g.floor(u))
  }

  /** The loop ends exactly when no instant of the interval is the end of its own bucket. */
  lemma TerminatesIff(g: Grid, start: Time, end: Time)
    requires NeverBack(g) && EndsRise(g)
    ensures Terminates(g, start, end) <==> Advancing(g, start, end)
  {
    VisitsIff(g, start, end);
    if !Advancing(g, start, end) {
      var p :| start <= p < end && !Progresses(g, p);
      assert p <= g.after(g.floor(p));
      forall k: nat ensures Position(g, start, end, k) < end {
        NeverPasses(g, start, end, p, k);
      }
    } else {
      forall k: nat | Position(g, start, end, k) < end ensures Progresses(g, Position(g, start, end, k)) {
        VisitsFrom(g, start, end, k);
      }
    }
  }

  /** An instant that ends its own bucket is never passed. */
  lemma {:induction false} NeverPasses(g: Grid, start: Time, end: Time, p: Time, k: nat)
    requires EndsRise(g) && start <= p < end && g.after(g.floor(p)) == p
    ensures Position(g, start, end, k) <= p
  {
    if k > 0 {
      NeverPasses(g, start, end, p, k - 1);
      assert g.after(g.floor(Position(g, start, end, k - 1))) <= g.after(g.floor(p));
    }
  }

  lemma {:induction false} VisitsFrom(g: Grid, start: Time, end: Time, k: nat)
    requires NeverBack(g)
    ensures start <= Position(g, start, end, k)
  {
    if k > 0 {
      VisitsFrom(g, start, end, k - 1);
    }
  }

  /** The loop ends exactly when no visited instant is the end of its own bucket. */
  lemma VisitsIff(g: Grid, start: Time, end: Time)
    requires NeverBack(g)
    ensures Terminates(g, start, end) <==> NeverStuck(g, start, end)
  {
    if NeverStuck(g, start, end) {
      Advances(g, start, end, Max(0, end - start));
    } else {
      var k: nat :| Position(g, start, end, k) < end && !Progresses(g, Position(g, start, end, k));
      forall j: nat ensures Position(g, start, end, j) < end {
        if j <= k { Rises(g, start, end, j, k); } else { StaysStuck(g, start, end, k, j); }
      }
    }
  }

  lemma {:induction false} Rises(g: Grid, start: Time, end: Time, j: nat, k: nat)
    requires NeverBack(g) && j <= k
    requires Position(g, start, end, k) < end
    ensures Position(g, start, end, j) < end
    decreases k
  {
    if j < k {
      var t := Position(g, start, end, k - 1);
      assert t >= end ==> Position(g, start, end, k) == t;
      Rises(g, start, end, j, k - 1);
    }
  }

  lemma {:induction false} StaysStuck(g: Grid, start: Time, end: Time, k: nat, j: nat)
    requires NeverBack(g) && k <= j
    requires Position(g, start, end, k) < end && !Progresses(g, Position(g, start, end, k))
    ensures Position(g, start, end, j) == Position(g, start, end, k)
    decreases j
  {
    if k < j {
      StaysStuck(g, start, end, k, j - 1);
    }
  }

  lemma {:induction false} Advances(g: Grid, start: Time, end: Time, k: nat)
    requires NeverStuck(g, start, end)
    ensures Position(g, start, end, k) >= Min(end, start + k)
  {
    if k > 0 {
      Advances(g, start, end, k - 1);
    }
  }

  /** Hours after the instant at which the changed day would have begun. */
  function Hours(n: int): Time { n * 3_600_000_000_000 }

  /** The days of a location whose clocks skip the midnight at hour 0, resolving it to
      23:00 of the day before (hour -1): one civil day after that is 23:00 again. */
  function SkippedMidnight(): Grid {
    Grid(t => if t < Hours(-1) then Hours(-25) else Hours(-1), t => t + Hours(24))
  }

  lemma SkippedFloor(t: Time)
    ensures SkippedMidnight().floor(t) == if t < Hours(-1) then Hours(-25) else Hours(-1)
    ensures SkippedMidnight().after(SkippedMidnight().floor(t)) == SkippedMidnight().floor(t) + Hours(24)
  {}

  /** There an interval from 10:00 of the changed day to 06:00 of the next one is never
      cut to its end: the loop visits 23:00, which is the end of its own bucket, for ever. */
  lemma SkippedMidnightStalls()
    ensures !Terminates(SkippedMidnight(), Hours(10), Hours(30))
    ensures !Tiling(SkippedMidnight()) && EndsRise(SkippedMidnight())
  {
    var g := SkippedMidnight();
    forall t, u | t <= u ensures g.after(g.floor(t)) <= g.after(g.floor(u)) {
      SkippedFloor(t);
      SkippedFloor(u);
    }
    forall k: nat ensures Position(g, Hours(10), Hours(30), k) < Hours(30) {
      StallsAt(k);
    }
    var day := g.floor(Hours(23));
    assert day == Hours(-1);
    assert g.after(day) == day + Hours(24) == Hours(23);
  }

  lemma {:induction false} StallsAt(k: nat)
    ensures Position(SkippedMidnight(), Hours(10), Hours(30), k) == if k == 0 then Hours(10) else Hours(23)
  {
    if k > 0 {
      StallsAt(k - 1);
      var t := Position(SkippedMidnight(), Hours(10), Hours(30), k - 1);
      assert SkippedMidnight().floor(t) == Hours(-1);
      assert Next(SkippedMidnight(), t, Hours(30)) == Hours(23);
    }
  }
}
