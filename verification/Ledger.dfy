/** The analytics database as values: its tables, what one ingest transaction makes of them,
    from validation to the saved checkpoint and status, and what retention takes away. */
module Ledger {
  import opened Wrappers
  import opened Clock
  import opened Calendar
  import opened Allocation
  import opened Split

  // ---------- observations ----------

  type Int64 = n: int | -MAX_INT64 - 1 <= n <= MAX_INT64

  datatype Dimensions = Dimensions(ip: string, domain: string, process: string, route: string, principal: string)

  const NO_ATTRIBUTION := Dimensions("", "", "", "", "")

  datatype Event = Event(id: string, at: Time, dims: Dimensions, count: Int64)

  datatype Delta = Delta(id: string, granularity: string, start: Time, end: Time, up: Int64, down: Int64, dims: Dimensions)

  datatype Checkpoint = Checkpoint(key: string, value: string, validJson: bool, updatedAt: Time)

  datatype State = NeverPolled | AtBaseline | Collecting | Incomplete | SourceDown | UnderPressure

  /** What a status tells its reader: one of the collector's remarks, or the text of an error. */
  datatype Message = Cleared | BaselineTaken | SomeLost | AttributionLost | CompactOnly | BudgetReached | Told(text: string)

  datatype Status = Status(droppedEvents: int, retentionDropped: int, gapCount: int, resetCount: int, state: State, message: Message)

  const NEW_STATUS := Status(0, 0, 0, 0, NeverPolled, Cleared)

  /** What a batch says about its source: the derived scope and the fingerprint of its binding. */
  datatype SourceMeta = SourceMeta(id: string, kind: string, scope: string, fingerprint: string)

  datatype Batch = Batch(
    sourceId: string, kind: string, scope: string, timezone: string, compact: bool, at: Time,
    events: seq<Event>, deltas: seq<Delta>, source: Option<SourceMeta>,
    checkpoint: Option<Checkpoint>, status: Option<Status>, coverageStart: Time)

  /** An observation the ledger accepted, with its dimensions as stored. */
  datatype Observation =
    | EventSeen(source: string, id: string, dims: Dimensions, at: Time, count: int)
    | IntervalSeen(source: string, id: string, dims: Dimensions, start: Time, end: Time, up: int, down: int)
    | DayImported(source: string, id: string, dims: Dimensions, start: Time, end: Time, up: int, down: int)

  // ---------- tables ----------

  datatype Amount = Amount(up: int, down: int, events: int) {
    function Plus(a: Amount): Amount { Amount(up + a.up, down + a.down, events + a.events) }

    predicate Room(a: Amount) {
      up <= MAX_INT64 - a.up && down <= MAX_INT64 - a.down && events <= MAX_INT64 - a.events
    }
  }

  /** The three summed columns of a metric row. */
  datatype Column = Up | Down | Events

  function Get(a: Amount, c: Column): int {
    match c
    case Up => a.up
    case Down => a.down
    case Events => a.events
  }

  datatype MetricKey = MetricKey(res: Resolution, bucket: int, source: string, dims: Dimensions)

  datatype MetricRow = MetricRow(key: MetricKey, amount: Amount, first: int, last: int)

  datatype CoverageKey = CoverageKey(res: Resolution, bucket: int, source: string)

  datatype CoverageRow = CoverageRow(key: CoverageKey, millis: int)

  datatype DetailKind = EventDetail | DeltaDetail

  datatype DetailKey = DetailKey(source: string, id: string, kind: DetailKind)

  datatype ImportKey = ImportKey(source: string, id: string)

  datatype CheckpointKey = CheckpointKey(source: string, key: string)

  datatype SavedCheckpoint = SavedCheckpoint(value: string, updated: int)

  datatype Source = Source(
    kind: string, scope: string, identity: string, coverageEnd: int, coarseDay: bool,
    retentionDrops: int, status: Option<Status>)

  datatype Tables = Tables(
    timezone: Option<string>,
    sources: map<string, Source>,
    checkpoints: map<CheckpointKey, SavedCheckpoint>,
    details: map<DetailKey, int>,
    imports: map<ImportKey, int>,
    metrics: seq<MetricRow>,
    coverage: seq<CoverageRow>,
    detailCutoff: Option<int>, minuteCutoff: Option<int>, dayCutoff: Option<int>)

  const EMPTY_TABLES := Tables(None, map[], map[], map[], map[], [], [], None, None, None)

  /** A watermark that was never written reads as zero. */
  function Cut(cutoff: Option<int>): int {
    if cutoff.Some? then cutoff.value else 0
  }

  /** The watermark after a retention pass asks for n: it never goes back. */
  function Raise(cutoff: Option<int>, n: int): Option<int> {
    if cutoff.Some? then Some(Max(cutoff.value, n)) else Some(n)
  }

  /** INSERT ... ON CONFLICT DO UPDATE on the metrics table, whose WHERE clause refuses
      an update that would overflow a 64-bit column. */
  function Upsert(rows: seq<MetricRow>, add: MetricRow): Result<seq<MetricRow>> {
    if rows == [] then Ok([add])
    else if rows[0].key == add.key then
      if rows[0].amount.Room(add.amount) then
        Ok([MetricRow(add.key, rows[0].amount.Plus(add.amount), Min(rows[0].first, add.first), Max(rows[0].last, add.last))] + rows[1..])
      else Err(CounterOverflow)
    else
      match Upsert(rows[1..], add)
      case Err(e) => Err(e)
      case Ok(rest) => Ok([rows[0]] + rest)
  }

  function Extend(rows: seq<CoverageRow>, add: CoverageRow): seq<CoverageRow> {
    if rows == [] then [add]
    else if rows[0].key == add.key then [CoverageRow(add.key, rows[0].millis + add.millis)] + rows[1..]
    else [rows[0]] + Extend(rows[1..], add)
  }

  // ---------- validation ----------

  predicate IsNameChar(c: char) {
    'a' <= c <= 'z' || 'A' <= c <= 'Z' || '0' <= c <= '9'
  }

  predicate SafeName(s: string) {
    && 1 <= |s| <= 64 && IsNameChar(s[0])
    && forall i :: 1 <= i < |s| ==> IsNameChar(s[i]) || s[i] in "_.-"
  }

  predicate ValidText(s: string) { |s| <= 2048 && '\0' !in s }

  predicate ValidDims(d: Dimensions) {
    ValidText(d.ip) && ValidText(d.domain) && ValidText(d.process) && ValidText(d.route) && ValidText(d.principal)
  }

  predicate ValidEvent(e: Event) {
    0 < |e.id| <= 512 && e.at != ZERO_TIME && 0 <= e.count && ValidDims(e.dims)
  }

  predicate ValidDelta(d: Delta) {
    && 0 < |d.id| <= 512 && d.start != ZERO_TIME && d.start < d.end && d.end - d.start <= MAX_SPAN
    && 0 <= d.up && 0 <= d.down && ValidDims(d.dims)
  }

  function LowerChar(c: char): char {
    if 'A' <= c <= 'Z' then (c as int + 32) as char else c
  }

  function Lower(s: string): string {
    if s == "" then "" else [LowerChar(s[0])] + Lower(s[1..])
  }

  function NormalizeHost(s: string): string {
    Lower(if |s| > 0 && s[|s| - 1] == '.' then s[..|s| - 1] else s)
  }

  function Normalize(d: Dimensions): Dimensions { d.(domain := NormalizeHost(d.domain)) }

  const DEFAULT_TIMEZONE := "Asia/Shanghai"

  function ZoneName(b: Batch): string { if b.timezone == "" then DEFAULT_TIMEZONE else b.timezone }

  function BatchError(b: Batch): Option<Error> {
    if !SafeName(b.sourceId) || b.kind == "" || |b.kind| > 64 then Some(InvalidSource)
    else if |b.events| + |b.deltas| > 5000 then Some(TooManyObservations)
    else if b.compact && |b.events| + |b.deltas| > 4 then Some(CompactTooLarge)
    else if b.compact && !Unattributed(b) then Some(CompactAttributed)
    else if b.at == ZERO_TIME then Some(NoObservationTime)
    else None
  }

  predicate Unattributed(b: Batch) {
    && (forall i :: 0 <= i < |b.events| ==> b.events[i].dims == NO_ATTRIBUTION)
    && (forall i :: 0 <= i < |b.deltas| ==> b.deltas[i].dims == NO_ATTRIBUTION)
  }

  // ---------- one transaction ----------

  /** A transaction under way: the tables as changed so far, what retention refused,
      and what was accepted. */
  datatype Tx = Tx(tables: Tables, skipped: int, accepted: seq<Observation>)

  function EventRow(res: Resolution, bucket: Time, source: string, dims: Dimensions, at: Time, count: int): MetricRow {
    MetricRow(MetricKey(res, UnixMilli(bucket), source, dims), Amount(0, 0, count), Millis(at), Millis(at))
  }

  /** The row one piece of an interval becomes, given the interval's allocation curves. */
  function PieceRow(res: Resolution, source: string, dims: Dimensions, up: Time -> int, down: Time -> int, p: Piece): MetricRow {
    MetricRow(MetricKey(res, UnixMilli(p.bucket), source, dims),
              Amount(up(p.end) - up(p.start), down(p.end) - down(p.start), 0), Millis(p.start), Millis(p.end))
  }

  function PieceRows(res: Resolution, source: string, dims: Dimensions, up: Time -> int, down: Time -> int, pieces: seq<Piece>): seq<MetricRow> {
    if pieces == [] then []
    else [PieceRow(res, source, dims, up, down, pieces[0])] + PieceRows(res, source, dims, up, down, pieces[1..])
  }

  function IntervalRows(days: Grid, res: Resolution, source: string, dims: Dimensions, start: Time, end: Time, up: int, down: int): seq<MetricRow>
  {
    if start >= end then []
    else PieceRows(res, source, dims, Curve(up, start, end), Curve(down, start, end), Pieces(GridOf(days, res), start, end))
  }

  function ImportRow(source: string, dims: Dimensions, start: Time, end: Time, up: int, down: int): MetricRow {
    MetricRow(MetricKey(Day, UnixMilli(start), source, dims), Amount(up, down, 0), Millis(start), Millis(end))
  }

  /** The rows one accepted observation adds, in the order they are added. */
  function RowsOf(days: Grid, o: Observation): seq<MetricRow>
  {
    match o
    case EventSeen(source, _, dims, at, count) =>
      [EventRow(Minute, TruncateMinute(at), source, dims, at, count), EventRow(Day, days.floor(at), source, dims, at, count)]
    case IntervalSeen(source, _, dims, start, end, up, down) =>
      IntervalRows(days, Minute, source, dims, start, end, up, down) + IntervalRows(days, Day, source, dims, start, end, up, down)
    case DayImported(source, _, dims, start, end, up, down) =>
      [ImportRow(source, dims, start, end, up, down)]
  }

  function AddRows(rows: seq<MetricRow>, adds: seq<MetricRow>): Result<seq<MetricRow>>
    decreases |adds|
  {
    if adds == [] then Ok(rows)
    else
      match Upsert(rows, adds[0])
      case Err(e) => Err(e)
      case Ok(more) => AddRows(more, adds[1..])
  }

  function Accept(days: Grid, tx: Tx, o: Observation): Result<Tx>
  {
    match AddRows(tx.tables.metrics, RowsOf(days, o))
    case Err(e) => Err(e)
    case Ok(rows) => Ok(Tx(tx.tables.(metrics := rows), tx.skipped, tx.accepted + [o]))
  }

  function AddEvent(days: Grid, tx: Tx, source: string, e: Event): Result<Tx>
  {
    if !ValidEvent(e) then Err(InvalidEvent)
    else
      var count := if e.count == 0 then 1 else e.count;
      var key := DetailKey(source, e.id, EventDetail);
      if UnixMilli(e.at) < Cut(tx.tables.detailCutoff) then Ok(tx.(skipped := tx.skipped + count))
      else if key in tx.tables.details then Ok(tx)
      else
        Accept(days, tx.(tables := tx.tables.(details := tx.tables.details[key := Millis(e.at)])),
               EventSeen(source, e.id, Normalize(e.dims), e.at, count))
  }

  function AddInterval(days: Grid, tx: Tx, source: string, d: Delta): Result<Tx>
  {
    var key := DetailKey(source, d.id, DeltaDetail);
    if UnixMilli(d.end) <= Cut(tx.tables.detailCutoff) then Ok(tx.(skipped := tx.skipped + 1))
    else if key in tx.tables.details then Ok(tx)
    else
      Accept(days, tx.(tables := tx.tables.(details := tx.tables.details[key := Millis(d.end)])),
             IntervalSeen(source, d.id, Normalize(d.dims), d.start, d.end, d.up, d.down))
  }

  function ImportDay(days: Grid, tx: Tx, source: string, d: Delta): Result<Tx>
    requires source in tx.tables.sources
  {
    var start := days.floor(d.start);
    var key := ImportKey(source, d.id);
    var row := tx.tables.sources[source];
    if d.start != start || d.end != days.after(start) then Err(MisalignedDay)
    else if UnixMilli(start) < Cut(tx.tables.dayCutoff) then Ok(tx.(skipped := tx.skipped + 1))
    else if key in tx.tables.imports then Ok(tx)
    else
      Accept(days, tx.(tables := tx.tables.(imports := tx.tables.imports[key := UnixMilli(start)],
                                         sources := tx.tables.sources[source := row.(coarseDay := true)])),
             DayImported(source, d.id, Normalize(d.dims), start, d.end, d.up, d.down))
  }

  function AddDelta(days: Grid, tx: Tx, source: string, d: Delta): Result<Tx>
    requires source in tx.tables.sources
  {
    if !ValidDelta(d) then Err(InvalidDelta)
    else if d.granularity !in {"", "interval", "day"} then Err(UnsupportedGranularity)
    else if d.granularity == "day" then ImportDay(days, tx, source, d)
    else AddInterval(days, tx, source, d)
  }

  function AddEvents(days: Grid, tx: Tx, source: string, events: seq<Event>): (r: Result<Tx>)
    ensures r.Ok? ==> r.value.tables.sources == tx.tables.sources
    decreases |events|
  {
    if events == [] then Ok(tx)
    else
      match AddEvent(days, tx, source, events[0])
      case Err(e) => Err(e)
      case Ok(next) => AddEvents(days, next, source, events[1..])
  }

  function AddDeltas(days: Grid, tx: Tx, source: string, deltas: seq<Delta>): (r: Result<Tx>)
    requires source in tx.tables.sources
    ensures r.Ok? ==> source in r.value.tables.sources
    decreases |deltas|
  {
    if deltas == [] then Ok(tx)
    else
      match AddDelta(days, tx, source, deltas[0])
      case Err(e) => Err(e)
      case Ok(next) => AddDeltas(days, next, source, deltas[1..])
  }

  /** The coverage rows of an interval's pieces: each counts its whole milliseconds. */
  function CoverRows(res: Resolution, source: string, pieces: seq<Piece>): seq<CoverageRow> {
    if pieces == [] then []
    else
      var p := pieces[0];
      [CoverageRow(CoverageKey(res, UnixMilli(p.bucket), source), UnixMilli(p.end - p.start))] + CoverRows(res, source, pieces[1..])
  }

  function ExtendAll(rows: seq<CoverageRow>, adds: seq<CoverageRow>): seq<CoverageRow>
    decreases |adds|
  {
    if adds == [] then rows else ExtendAll(Extend(rows, adds[0]), adds[1..])
  }

  /** Where newly covered time starts: never before what is already covered. */
  function CoverageFrom(coverageEnd: int, b: Batch): Time {
    if Millis(b.coverageStart) < coverageEnd then FromMillis(coverageEnd) else b.coverageStart
  }

  /** [start, end) counted as observed time of the source, which is then covered to end. */
  function Covering(days: Grid, t: Tables, source: string, start: Time, end: Time): Tables
    requires source in t.sources
  {
    t.(coverage := ExtendAll(ExtendAll(t.coverage, CoverRows(Minute, source, Pieces(Minutes(), start, end))),
                             CoverRows(Day, source, Pieces(days, start, end))),
       sources := t.sources[source := t.sources[source].(coverageEnd := Millis(end))])
  }

  function Cover(days: Grid, t: Tables, b: Batch): (r: Result<Tables>)
    requires b.sourceId in t.sources
    ensures r.Ok? ==> b.sourceId in r.value.sources
  {
    var row := t.sources[b.sourceId];
    if b.coverageStart == ZERO_TIME then Ok(t)
    else
      var start := CoverageFrom(row.coverageEnd, b);
      if b.at - start > MAX_SPAN then Err(CoverageTooLong)
      else if start >= b.at then Ok(t)
      else Ok(Covering(days, t, b.sourceId, start, b.at))
  }

  function SaveCheckpoint(t: Tables, b: Batch): (r: Result<Tables>)
    ensures r.Ok? ==> r.value.sources == t.sources
  {
    if b.checkpoint.None? then Ok(t)
    else
      var c := b.checkpoint.value;
      if c.key == "" || |c.key| > 128 || |c.value| > 1048576 || !c.validJson then Err(InvalidCheckpoint)
      else
        var at := if c.updatedAt == ZERO_TIME then b.at else c.updatedAt;
        Ok(t.(checkpoints := t.checkpoints[CheckpointKey(b.sourceId, c.key) := SavedCheckpoint(c.value, Millis(at))]))
  }

  /** The status as stored: the collector's own copy plus the retention drops it has not counted yet. */
  function StoredStatus(s: Status, drops: int): Status {
    s.(droppedEvents := s.droppedEvents + Max(0, drops - s.retentionDropped),
       retentionDropped := drops,
       message := if s.message.Told? && |s.message.text| > 4096 then Told(s.message.text[..4096]) else s.message)
  }

  function SaveStatus(t: Tables, b: Batch, dropsBefore: int, skipped: int): Tables
    requires b.sourceId in t.sources
  {
    var row := t.sources[b.sourceId];
    var counted := row.(retentionDrops := row.retentionDrops + Max(0, skipped));
    t.(sources := t.sources[b.sourceId :=
        if b.status.Some? then counted.(status := Some(StoredStatus(b.status.value, dropsBefore + skipped))) else counted])
  }

  /** Pinning the time zone and the source: the first successful batch decides. */
  function Bind(t: Tables, b: Batch): (r: Result<Tables>)
    ensures r.Ok? ==> b.sourceId in r.value.sources && r.value.timezone == Some(ZoneName(b))
  {
    var tz := if t.timezone.Some? then t.timezone.value else ZoneName(b);
    var known := b.sourceId in t.sources;
    var identity := if b.source.Some? then b.source.value.fingerprint else "";
    if tz != ZoneName(b) then Err(TimezoneChanged)
    else if known && (t.sources[b.sourceId].kind != b.kind || t.sources[b.sourceId].scope != b.scope) then Err(SourceChanged)
    else if b.source.Some? && (b.source.value.id != b.sourceId || b.source.value.kind != b.kind || b.source.value.scope != b.scope) then
      Err(SourceMismatch)
    else if known && t.sources[b.sourceId].identity !in {"", identity} then Err(BindingChanged)
    else if !known && |t.sources| >= 128 then Err(TooManySources)
    else
      var row := if known then t.sources[b.sourceId] else Source(b.kind, b.scope, "", 0, false, 0, None);
      var bound := if row.identity == "" then row.(identity := identity) else row;
      Ok(t.(timezone := Some(tz), sources := t.sources[b.sourceId := bound]))
  }

  /** What the storage layer answers during a call: the pressure flag, whether the
      directory is over its byte budget, and whether some statement of the transaction
      finds the database full before another error ends it. */
  datatype Storage = Storage(pressure: bool, overBudget: bool, full: bool)

  ghost predicate AllRegular(zones: map<string, Grid>) {
    forall tz :: tz in zones ==> Regular(zones[tz])
  }

  /** The observations of a batch, after its source is bound. */
  function Observe(days: Grid, t: Tables, b: Batch): (r: Result<Tx>)
    ensures r.Ok? ==> b.sourceId in r.value.tables.sources
  {
    match Bind(t, b)
    case Err(e) => Err(e)
    case Ok(bound) =>
      match AddEvents(days, Tx(bound, 0, []), b.sourceId, b.events)
      case Err(e) => Err(e)
      case Ok(tx) => AddDeltas(days, tx, b.sourceId, b.deltas)
  }

  /** Coverage, checkpoint, status and drop count, in the same transaction. */
  function Finish(days: Grid, tx: Tx, b: Batch, dropsBefore: int): Result<Tx>
    requires b.sourceId in tx.tables.sources
  {
    match Cover(days, tx.tables, b)
    case Err(e) => Err(e)
    case Ok(covered) =>
      match SaveCheckpoint(covered, b)
      case Err(e) => Err(e)
      case Ok(saved) => Ok(tx.(tables := SaveStatus(saved, b, dropsBefore, tx.skipped)))
  }

  function DropsOf(t: Tables, source: string): int {
    if source in t.sources then t.sources[source].retentionDrops else 0
  }

  function Transact(days: Grid, t: Tables, b: Batch): Result<Tx>
  {
    match Observe(days, t, b)
    case Err(e) => Err(e)
    case Ok(tx) => Finish(days, tx, b, DropsOf(t, b.sourceId))
  }

  /** Ingest: either the whole transaction or an error. */
  function Ingest(zones: map<string, Grid>, t: Tables, b: Batch, storage: Storage): Result<Tx>
  {
    if BatchError(b).Some? then Err(BatchError(b).value)
    else if ZoneName(b) !in zones then Err(UnknownTimezone)
    else if (storage.pressure && !b.compact) || storage.overBudget || storage.full then Err(StorageLimit)
    else Transact(zones[ZoneName(b)], t, b)
  }

  // ---------- retention ----------

  /** The three instants retention counts back to. */
  datatype Horizon = Horizon(detail: Time, minute: Time, day: Time)

  function KeepMetrics(rows: seq<MetricRow>, res: Resolution, from: int): seq<MetricRow> {
    if rows == [] then []
    else if rows[0].key.res == res && rows[0].key.bucket < from then KeepMetrics(rows[1..], res, from)
    else [rows[0]] + KeepMetrics(rows[1..], res, from)
  }

  function KeepCoverage(rows: seq<CoverageRow>, res: Resolution, from: int): seq<CoverageRow> {
    if rows == [] then []
    else if rows[0].key.res == res && rows[0].key.bucket < from then KeepCoverage(rows[1..], res, from)
    else [rows[0]] + KeepCoverage(rows[1..], res, from)
  }

  function KeepDetails(details: map<DetailKey, int>, from: int): map<DetailKey, int> {
    map k | k in details && from <= details[k] :: details[k]
  }

  function KeepImports(imports: map<ImportKey, int>, from: int): map<ImportKey, int> {
    map k | k in imports && from <= imports[k] :: imports[k]
  }

  /** The time-based part of Prune. */
  function Prune(t: Tables, h: Horizon): Tables {
    var detail := UnixMilli(h.detail);
    var minute := UnixMilli(TruncateMinute(h.minute));
    var day := UnixMilli(h.day);
    t.(details := KeepDetails(t.details, detail),
       imports := KeepImports(t.imports, day),
       metrics := KeepMetrics(KeepMetrics(t.metrics, Minute, minute), Day, day),
       coverage := KeepCoverage(KeepCoverage(t.coverage, Minute, minute), Day, day),
       detailCutoff := Raise(t.detailCutoff, detail),
       minuteCutoff := Raise(t.minuteCutoff, minute),
       dayCutoff := Raise(t.dayCutoff, day))
  }

  /** SELECT MIN(bucket) over one resolution. */
  function OldestBucket(rows: seq<MetricRow>, res: Resolution): Option<int> {
    if rows == [] then None
    else
      var rest := OldestBucket(rows[1..], res);
      if rows[0].key.res != res then rest
      else if rest.None? then Some(rows[0].key.bucket)
      else Some(Min(rows[0].key.bucket, rest.value))
  }

  const EVICT_CHUNK := 4096

  /** The answer of the bounded query for the youngest of the 4096 oldest details. */
  ghost predicate OldestDetails(details: map<DetailKey, int>, answer: Option<int>) {
    match answer
    case None => details == map[]
    case Some(at) =>
      && (exists k :: k in details && details[k] == at)
      && |set k | k in details && details[k] < at| < EVICT_CHUNK
      && (|set k | k in details && details[k] <= at| >= EVICT_CHUNK || forall k :: k in details ==> details[k] <= at)
  }

  /** One eviction transaction: details first, then the oldest minute, then the oldest day. */
  function Evict(days: Grid, t: Tables, oldest: Option<int>): Tables {
    if oldest.Some? then
      t.(details := KeepDetails(t.details, oldest.value + 1), detailCutoff := Raise(t.detailCutoff, oldest.value + 1))
    else
      var minute := OldestBucket(t.metrics, Minute);
      var day := OldestBucket(t.metrics, Day);
      if minute.Some? then
        t.(metrics := KeepMetrics(t.metrics, Minute, minute.value + 1),
           coverage := KeepCoverage(t.coverage, Minute, minute.value + 1),
           minuteCutoff := Raise(t.minuteCutoff, minute.value + 60_000))
      else if day.Some? then
        var next := UnixMilli(days.after(FromMillis(day.value)));
        t.(metrics := KeepMetrics(t.metrics, Day, day.value + 1),
           imports := KeepImports(t.imports, next),
           coverage := KeepCoverage(t.coverage, Day, day.value + 1),
           dayCutoff := Raise(t.dayCutoff, next))
      else t
  }
}
