/** Grids of time buckets: whole minutes, and the civil days of a location. What a calendar
    must satisfy for buckets to tile time is stated here once, as a hypothesis on the pair
    of functions that files an instant under a bucket and finds where the bucket ends; the
    program takes both from the time-zone database, which is not part of this model. */
module Calendar {
  import opened Clock

  datatype Resolution = Minute | Day

  /** floor(t) is the start of the bucket instant t is filed under; after(b) is where
      the bucket starting at b is taken to end. For the civil days of a location these
      are midnight of t's day and the instant one civil day after b. */
  datatype Grid = Grid(floor: Time -> Time, after: Time -> Time)

  function Minutes(): Grid {
    Grid(t => TruncateMinute(t), b => b + 60_000_000_000)
  }

  function GridOf(days: Grid, res: Resolution): Grid {
    if res.Day? then days else Minutes()
  }

  /** The hypothesis under which buckets tile time: every instant lies inside the bucket
      it is filed under, and all instants of a bucket are filed under it. */
  ghost predicate Tiling(g: Grid) {
    && (forall t {:trigger g.floor(t)} :: g.floor(t) <= t < g.after(g.floor(t)))
    && (forall t, u {:trigger g.floor(t), g.floor(u)} ::
          g.floor(t) <= u < g.after(g.floor(t)) ==> g.floor(u) == g.floor(t))
  }

  /** Buckets start on whole minutes, and a bucket later is at least a minute later. */
  ghost predicate OnMinutes(g: Grid) {
    && (forall t {:trigger g.floor(t)} :: g.floor(t) % 60_000_000_000 == 0)
    && (forall t {:trigger g.after(t)} :: t + 60_000_000_000 <= g.after(t))
  }

  ghost predicate Regular(g: Grid) { Tiling(g) && OnMinutes(g) }

  ghost predicate IsBoundary(g: Grid, t: Time) { g.floor(t) == t }

  lemma MinutesRegular()
    ensures Regular(Minutes())
  {
    var g := Minutes();
    forall t ensures g.floor(t) <= t < g.after(g.floor(t)) && g.floor(t) % 60_000_000_000 == 0 {
      TruncationHolds(t);
    }
    forall t, u | g.floor(t) <= u < g.after(g.floor(t)) ensures g.floor(u) == g.floor(t) {
      TruncationShared(t, u);
    }
  }

  /** A boundary never falls inside a bucket: it separates buckets as it separates instants. */
  lemma BoundarySeparates(g: Grid, lo: Time, t: Time)
    requires Tiling(g) && IsBoundary(g, lo)
    ensures lo <= t <==> lo <= g.floor(t)
    ensures t < lo <==> g.after(g.floor(t)) <= lo
  {
    assert g.floor(t) <= t;
    assert g.floor(t) <= lo < g.after(g.floor(t)) ==> g.floor(lo) == g.floor(t);
  }

  lemma EndIsBoundary(g: Grid, t: Time)
    requires Tiling(g)
    ensures IsBoundary(g, g.floor(t)) && IsBoundary(g, g.after(g.floor(t)))
  {
    var e := g.after(g.floor(t));
    assert g.floor(g.floor(t)) == g.floor(t);
    assert g.floor(e - 1) == g.floor(t);
    assert g.floor(e) <= e;
  }

  /** A boundary of any regular grid is a minute boundary. */
  lemma BoundaryOnMinute(g: Grid, t: Time)
    requires Regular(g) && IsBoundary(g, t)
    ensures IsBoundary(Minutes(), t) && t % 60_000_000_000 == 0
  {
    assert g.floor(t) % 60_000_000_000 == 0;
  }

  /** Boundaries are ordered as their millisecond stamps are. */
  lemma StampsOrdered(g: Grid, s: Time, t: Time)
    requires Regular(g) && IsBoundary(g, s) && IsBoundary(g, t)
    ensures s <= t <==> UnixMilli(s) <= UnixMilli(t)
  {
    BoundaryOnMinute(g, s);
    BoundaryOnMinute(g, t);
    AlignedMillisOrder(s, t);
  }
}
