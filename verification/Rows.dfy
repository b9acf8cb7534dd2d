/** What one addition does to the rows, one by one. */
module Rows {
  import opened Wrappers
  import opened Clock
  import opened Ledger
  import opened Calendar
  import opened Split
  import opened Allocation
  import Store

  /** The row with this key, at this place. */
  predicate At(rows: seq<MetricRow>, key: MetricKey, i: nat) {
    i < |rows| && rows[i].key == key && forall j :: 0 <= j < i ==> rows[j].key != key
  }

  /** None of the sums leaves 64 bits. */
  predicate SumsFit(a: Amount, b: Amount) {
    && a.up + b.up <= 9_223_372_036_854_775_807 && a.down + b.down <= 9_223_372_036_854_775_807
    && a.events + b.events <= 9_223_372_036_854_775_807
  }

  /** The sums, the earlier of the first stamps and the later of the last ones. */
  predicate Merges(row: MetricRow, add: MetricRow, merged: MetricRow) {
    && merged.key == add.key
    && merged.amount == Amount(row.amount.up + add.amount.up, row.amount.down + add.amount.down, row.amount.events + add.amount.events)
    && merged.first <= row.first && merged.first <= add.first && merged.first in {row.first, add.first}
    && merged.last >= row.last && merged.last >= add.last && merged.last in {row.last, add.last}
  }

  predicate OnlyAt(rows: seq<MetricRow>, rows': seq<MetricRow>, i: nat) {
    |rows'| == |rows| && forall j :: 0 <= j < |rows| && j != i ==> rows'[j] == rows[j]
  }

  /** With a new key the addition goes behind the rows. */
  lemma {:induction false} UpsertNew(rows: seq<MetricRow>, add: MetricRow)
    requires forall j :: 0 <= j < |rows| ==> rows[j].key != add.key
    ensures Upsert(rows, add) == Ok(rows + [add])
  {
    if rows == [] {
      assert [] + [add] == [add];
    } else {
      UpsertNew(rows[1..], add);
      assert rows + [add] == [rows[0]] + (rows[1..] + [add]);
    }
  }

  /** Otherwise it goes into the row that has the key, and no other row changes; it is refused
      exactly when one of that row's sums would leave 64 bits. */
  lemma {:induction false} UpsertOld(rows: seq<MetricRow>, add: MetricRow, i: nat)
    requires At(rows, add.key, i)
    ensures if SumsFit(rows[i].amount, add.amount) then
              Upsert(rows, add).Ok? && OnlyAt(rows, Upsert(rows, add).value, i) && Merges(rows[i], add, Upsert(rows, add).value[i])
            else Upsert(rows, add) == Err(CounterOverflow)
  {
    if i > 0 {
      assert rows[0].key != add.key && At(rows[1..], add.key, i - 1);
      UpsertOld(rows[1..], add, i - 1);
    }
  }

  // ---------- the stamps of the added rows ----------

  function Stamp(t: Time): int { if t == ZERO_TIME then 0 else UnixMilli(t) }

  /** The rows follow one another from the start to the end. */
  predicate Spans(rows: seq<MetricRow>, start: Time, end: Time) {
    && rows != [] && rows[0].first == Stamp(start) && rows[|rows| - 1].last == Stamp(end)
    && forall i :: 0 < i < |rows| ==> rows[i - 1].last == rows[i].first
  }

  lemma IntervalStamps(days: Grid, res: Resolution, source: string, dims: Dimensions, start: Time, end: Time, up: int, down: int)
    requires Regular(days) && start < end
    ensures Spans(IntervalRows(days, res, source, dims, start, end, up, down), start, end)
  {
    var g := GridOf(days, res);
    MinutesRegular();
    PiecesTile(g, start, end);
    var pieces, rows := Pieces(g, start, end), IntervalRows(days, res, source, dims, start, end, up, down);
    Store.PieceRowsAt(res, source, dims, Curve(up, start, end), Curve(down, start, end), pieces);
    forall i | 0 <= i < |pieces| ensures StampedAs(rows[i], pieces[i]) {}
    TilesSpan(pieces, rows, start, end);
  }

  predicate StampedAs(row: MetricRow, p: Piece) { row.first == Stamp(p.start) && row.last == Stamp(p.end) }

  lemma TilesSpan(pieces: seq<Piece>, rows: seq<MetricRow>, start: Time, end: Time)
    requires |rows| == |pieces| > 0 && pieces[0].start == start && pieces[|pieces| - 1].end == end
    requires (forall i :: 0 <= i < |pieces| - 1 ==> pieces[i].end == pieces[i + 1].start) && forall i :: 0 <= i < |pieces| ==> StampedAs(rows[i], pieces[i])
    ensures Spans(rows, start, end)
  {
    forall i | 0 < i < |rows| ensures rows[i - 1].last == rows[i].first {
      assert StampedAs(rows[i - 1], pieces[i - 1]) && StampedAs(rows[i], pieces[i]);
      assert pieces[i - 1].end == pieces[(i - 1) + 1].start;
    }
    assert StampedAs(rows[0], pieces[0]) && StampedAs(rows[|rows| - 1], pieces[|pieces| - 1]);
  }

  /** The rows of an observation are stamped with it: an event with its instant, an imported day
      with its ends, and of an interval, at each resolution, the first row with its start, the
      last with its end, and each other with the end of the one before. */
  lemma RowsStamped(days: Grid, o: Observation)
    requires Regular(days) && (o.IntervalSeen? ==> o.start < o.end)
    ensures var rows := RowsOf(days, o);
            match o
            case EventSeen(_, _, _, at, _) => |rows| == 2 && rows[0].first == rows[0].last == rows[1].first == rows[1].last == Stamp(at)
            case DayImported(_, _, _, start, end, _, _) => |rows| == 1 && rows[0].first == Stamp(start) && rows[0].last == Stamp(end)
            case IntervalSeen(_, _, _, start, end, _, _) =>
              exists n :: 0 < n < |rows| && Spans(rows[..n], start, end) && Spans(rows[n..], start, end)
                          && (forall i :: 0 <= i < n ==> rows[i].key.res == Minute) && forall i :: n <= i < |rows| ==> rows[i].key.res == Day
  {
    if o.IntervalSeen? {
      var minutes := IntervalRows(days, Minute, o.source, o.dims, o.start, o.end, o.up, o.down);
      var all := RowsOf(days, o);
      IntervalStamps(days, Minute, o.source, o.dims, o.start, o.end, o.up, o.down);
      IntervalStamps(days, Day, o.source, o.dims, o.start, o.end, o.up, o.down);
      Store.PieceRowsAt(Minute, o.source, o.dims, Curve(o.up, o.start, o.end), Curve(o.down, o.start, o.end), Pieces(Minutes(), o.start, o.end));
      Store.PieceRowsAt(Day, o.source, o.dims, Curve(o.up, o.start, o.end), Curve(o.down, o.start, o.end), Pieces(days, o.start, o.end));
      assert all[..|minutes|] == minutes && all[|minutes|..] == all[|minutes|..];
      assert all == minutes + all[|minutes|..];
    }
  }
}
