/** What a committed batch puts on record, said of the batch itself. */
module Filing {
  import opened Wrappers
  import opened Clock
  import opened Calendar
  import opened Ledger
  import opened History

  // ---------- under which attribution ----------

  /** The host without one trailing dot, and with small letters for the capitals of ASCII. */
  predicate HostFiled(raw: string, host: string) {
    && |host| == (if |raw| > 0 && raw[|raw| - 1] == '.' then |raw| - 1 else |raw|)
    && forall i :: 0 <= i < |host| ==> host[i] == if 'A' <= raw[i] <= 'Z' then raw[i] - 'A' + 'a' else raw[i]
  }

  /** Every other column is the one it came in. */
  predicate FiledAs(raw: Dimensions, d: Dimensions) {
    d.ip == raw.ip && d.process == raw.process && d.route == raw.route && d.principal == raw.principal && HostFiled(raw.domain, d.domain)
  }

  lemma {:induction false} LowerAt(s: string)
    ensures |Lower(s)| == |s| && forall i :: 0 <= i < |s| ==> Lower(s)[i] == if 'A' <= s[i] <= 'Z' then s[i] - 'A' + 'a' else s[i]
  {
    if s != "" {
      LowerAt(s[1..]);
    }
  }

  lemma NormalizeFiles(d: Dimensions)
    ensures FiledAs(d, Normalize(d))
  {
    LowerAt(if |d.domain| > 0 && d.domain[|d.domain| - 1] == '.' then d.domain[..|d.domain| - 1] else d.domain);
  }

  lemma FiledUnderOne(raw: Dimensions, d: Dimensions, d': Dimensions)
    requires FiledAs(raw, d) && FiledAs(raw, d')
    ensures d == d'
  {
    assert d.domain == d'.domain;
  }

  // ---------- what of a batch is recorded ----------

  predicate RecordsEvent(source: string, e: Event, o: Observation) {
    && o.EventSeen? && o.source == source && o.id == e.id && o.at == e.at && FiledAs(e.dims, o.dims)
    && o.count == if e.count == 0 then 1 else e.count
  }

  predicate IsDay(d: Delta) { d.granularity == "day" }

  predicate RecordsDelta(source: string, d: Delta, o: Observation) {
    if IsDay(d) then
      && o.DayImported? && o.source == source && o.id == d.id && o.start == d.start && o.end == d.end && FiledAs(d.dims, o.dims)
      && o.up == d.up && o.down == d.down
    else
      && o.IntervalSeen? && o.source == source && o.id == d.id && o.start == d.start && o.end == d.end && FiledAs(d.dims, o.dims)
      && o.up == d.up && o.down == d.down
  }

  function Mark(cutoff: Option<int>): int {
    match cutoff
    case None => 0
    case Some(n) => n
  }

  /** Not before the watermark for details. */
  predicate EventKept(t: Tables, e: Event) { Mark(t.detailCutoff) * 1_000_000 <= e.at }

  /** An interval must end past it, an imported day not begin before its own. */
  predicate DeltaKept(t: Tables, d: Delta) {
    if IsDay(d) then Mark(t.dayCutoff) * 1_000_000 <= d.start else (Mark(t.detailCutoff) + 1) * 1_000_000 <= d.end
  }

  predicate DeltaStored(t: Tables, source: string, d: Delta) {
    if IsDay(d) then ImportKey(source, d.id) in t.imports else DetailKey(source, d.id, DeltaDetail) in t.details
  }

  /** The element is recorded: it lies past the watermark, its identifier is not stored, and
      no element of its kind before it in the batch with the same identifier does. */
  predicate FreshEvent(t: Tables, source: string, es: seq<Event>, i: nat)
    requires i < |es|
  {
    && EventKept(t, es[i]) && DetailKey(source, es[i].id, EventDetail) !in t.details
    && forall j :: 0 <= j < i && es[j].id == es[i].id ==> !EventKept(t, es[j])
  }

  predicate SameName(d: Delta, e: Delta) { d.id == e.id && (IsDay(d) <==> IsDay(e)) }

  predicate FreshDelta(t: Tables, source: string, ds: seq<Delta>, i: nat)
    requires i < |ds|
  {
    && DeltaKept(t, ds[i]) && !DeltaStored(t, source, ds[i])
    && forall j :: 0 <= j < i && SameName(ds[j], ds[i]) ==> !DeltaKept(t, ds[j])
  }

  predicate Increasing(idx: seq<nat>) { forall j, k :: 0 <= j < k < |idx| ==> idx[j] < idx[k] }

  lemma IndexMore(idx: seq<nat>, n: nat)
    requires Increasing(idx) && forall k :: 0 <= k < |idx| ==> idx[k] < n
    ensures Increasing(idx + [n]) && n !in idx && forall i: nat :: i in idx + [n] <==> i in idx || i == n
  {}

  /** These are the records of the fresh events, one each, in their order. */
  predicate EventRecords(t: Tables, source: string, es: seq<Event>, idx: seq<nat>, os: seq<Observation>) {
    && Increasing(idx) && (forall k :: 0 <= k < |idx| ==> idx[k] < |es|)
    && (forall i :: 0 <= i < |es| ==> (i in idx <==> FreshEvent(t, source, es, i)))
    && |os| == |idx| && forall k :: 0 <= k < |idx| ==> RecordsEvent(source, es[idx[k]], os[k])
  }

  predicate DeltaRecords(t: Tables, source: string, ds: seq<Delta>, idx: seq<nat>, os: seq<Observation>) {
    && Increasing(idx) && (forall k :: 0 <= k < |idx| ==> idx[k] < |ds|)
    && (forall i :: 0 <= i < |ds| ==> (i in idx <==> FreshDelta(t, source, ds, i)))
    && |os| == |idx| && forall k :: 0 <= k < |idx| ==> RecordsDelta(source, ds[idx[k]], os[k])
  }

  // ---------- events ----------

  /** What events below the watermark count for in the drops. */
  function EventsLate(t: Tables, es: seq<Event>): int {
    if es == [] then 0
    else
      var e := es[|es| - 1];
      EventsLate(t, es[..|es| - 1]) + if EventKept(t, e) then 0 else if e.count == 0 then 1 else e.count
  }

  lemma {:induction false} EventsSnoc(days: Grid, tx: Tx, source: string, es: seq<Event>, e: Event)
    requires AddEvents(days, tx, source, es + [e]).Ok?
    ensures AddEvents(days, tx, source, es).Ok? && AddEvent(days, AddEvents(days, tx, source, es).value, source, e).Ok?
    ensures AddEvents(days, tx, source, es + [e]) == AddEvent(days, AddEvents(days, tx, source, es).value, source, e)
    decreases |es|
  {
    var all := es + [e];
    if es == [] {
      assert all == [e] && all[1..] == [];
    } else {
      assert all[0] == es[0] && all[1..] == es[1..] + [e];
      EventsSnoc(days, AddEvent(days, tx, source, es[0]).value, source, es[1..], e);
    }
  }

  /** A kept event with this identifier is among them. */
  predicate Carried(t: Tables, es: seq<Event>, id: string) { exists i :: 0 <= i < |es| && es[i].id == id && EventKept(t, es[i]) }

  lemma CarriedMore(t: Tables, es: seq<Event>, e: Event, id: string)
    ensures Carried(t, es + [e], id) <==> Carried(t, es, id) || (e.id == id && EventKept(t, e))
  {
    var all := es + [e];
    assert all[|es|] == e;
    if i :| 0 <= i < |es| && es[i].id == id && EventKept(t, es[i]) { assert all[i] == es[i]; }
  }

  /** The details stored so far: those before, and the fresh events. */
  ghost predicate EventsStored(t: Tables, source: string, es: seq<Event>, t': Tables) {
    forall id {:trigger DetailKey(source, id, EventDetail)} ::
      DetailKey(source, id, EventDetail) in t'.details <==> DetailKey(source, id, EventDetail) in t.details || Carried(t, es, id)
  }

  /** Events touch nothing but details and rows. */
  ghost predicate OnlyEvents(t: Tables, t': Tables) {
    t' == t.(details := t'.details, metrics := t'.metrics) && forall k: DetailKey :: k.kind.DeltaDetail? ==> (k in t'.details <==> k in t.details)
  }

  /** One event more. */
  lemma EventRecorded(days: Grid, t: Tables, tx: Tx, source: string, es: seq<Event>, e: Event) returns (taken: bool, more: seq<Observation>)
    requires EventsStored(t, source, es, tx.tables) && OnlyEvents(t, tx.tables) && AddEvent(days, tx, source, e).Ok?
    ensures var tx' := AddEvent(days, tx, source, e).value;
            && OnlyEvents(t, tx'.tables) && tx'.accepted == tx.accepted + more
            && tx'.skipped == tx.skipped + (if EventKept(t, e) then 0 else if e.count == 0 then 1 else e.count)
            && EventsStored(t, source, es + [e], tx'.tables)
    ensures taken <==> EventKept(t, e) && DetailKey(source, e.id, EventDetail) !in tx.tables.details
    ensures if taken then |more| == 1 && RecordsEvent(source, e, more[0]) else more == []
  {
    var key := DetailKey(source, e.id, EventDetail);
    assert EventKept(t, e) <==> UnixMilli(e.at) >= Cut(tx.tables.detailCutoff);
    NormalizeFiles(e.dims);
    taken := EventKept(t, e) && key !in tx.tables.details;
    more := if taken then [EventSeen(source, e.id, Normalize(e.dims), e.at, if e.count == 0 then 1 else e.count)] else [];
    assert AddEvent(days, tx, source, e).value.accepted == tx.accepted + more;
    forall id ensures Carried(t, es + [e], id) <==> Carried(t, es, id) || (e.id == id && EventKept(t, e)) {
      CarriedMore(t, es, e, id);
    }
  }

  lemma FreshIsNew(t: Tables, source: string, es: seq<Event>, e: Event, t': Tables)
    requires EventsStored(t, source, es, t')
    ensures FreshEvent(t, source, es + [e], |es|) <==> EventKept(t, e) && DetailKey(source, e.id, EventDetail) !in t'.details
    ensures forall i :: 0 <= i < |es| ==> (FreshEvent(t, source, es + [e], i) <==> FreshEvent(t, source, es, i))
  {
    var all := es + [e];
    assert all[|es|] == e && forall i :: 0 <= i < |es| ==> all[i] == es[i];
    assert DetailKey(source, e.id, EventDetail) in t'.details <==>
           DetailKey(source, e.id, EventDetail) in t.details || Carried(t, es, e.id);
  }

  lemma EventRecordsMore(t: Tables, source: string, es: seq<Event>, e: Event, idx: seq<nat>, os: seq<Observation>, taken: bool, more: seq<Observation>)
    requires EventRecords(t, source, es, idx, os) && (taken <==> FreshEvent(t, source, es + [e], |es|))
    requires forall i :: 0 <= i < |es| ==> (FreshEvent(t, source, es + [e], i) <==> FreshEvent(t, source, es, i))
    requires if taken then |more| == 1 && RecordsEvent(source, e, more[0]) else more == []
    ensures EventRecords(t, source, es + [e], if taken then idx + [|es|] else idx, os + more)
  {
    IndexMore(idx, |es|);
    assert taken ==> forall k :: 0 <= k < |idx| + 1 ==> (os + more)[k] == if k < |idx| then os[k] else more[0];
  }

  ghost predicate EventsSum(t: Tables, tx: Tx, tx': Tx, es: seq<Event>, os: seq<Observation>) {
    tx'.accepted == tx.accepted + os && tx'.skipped == tx.skipped + EventsLate(t, es) && OnlyEvents(t, tx'.tables)
  }

  lemma EventsSumMore(t: Tables, tx: Tx, mid: Tx, tx': Tx, es: seq<Event>, e: Event, os: seq<Observation>, more: seq<Observation>)
    requires EventsSum(t, tx, mid, es, os) && OnlyEvents(t, tx'.tables) && tx'.accepted == mid.accepted + more
    requires tx'.skipped == mid.skipped + if EventKept(t, e) then 0 else if e.count == 0 then 1 else e.count
    ensures EventsSum(t, tx, tx', es + [e], os + more)
  {
    assert (es + [e])[..|es|] == es;
    assert tx.accepted + (os + more) == (tx.accepted + os) + more;
  }

  lemma EventsGoOn(days: Grid, tx: Tx, mid: Tx, source: string, es: seq<Event>, e: Event, idx: seq<nat>, os: seq<Observation>)
      returns (idx': seq<nat>, os': seq<Observation>)
    requires EventRecords(tx.tables, source, es, idx, os) && EventsSum(tx.tables, tx, mid, es, os) && EventsStored(tx.tables, source, es, mid.tables)
    requires AddEvent(days, mid, source, e).Ok?
    ensures var tx' := AddEvent(days, mid, source, e).value;
            EventRecords(tx.tables, source, es + [e], idx', os') && EventsSum(tx.tables, tx, tx', es + [e], os') && EventsStored(tx.tables, source, es + [e], tx'.tables)
  {
    var taken, more := EventRecorded(days, tx.tables, mid, source, es, e);
    FreshIsNew(tx.tables, source, es, e, mid.tables);
    EventRecordsMore(tx.tables, source, es, e, idx, os, taken, more);
    idx', os' := if taken then idx + [|es|] else idx, os + more;
    EventsSumMore(tx.tables, tx, mid, AddEvent(days, mid, source, e).value, es, e, os, more);
  }

  /** The fresh events of the batch are recorded, each once, in their order; what lies below
      the watermark counts as dropped. */
  lemma {:induction false} EventsRecorded(days: Grid, tx: Tx, source: string, es: seq<Event>) returns (idx: seq<nat>, os: seq<Observation>)
    requires AddEvents(days, tx, source, es).Ok?
    ensures var tx' := AddEvents(days, tx, source, es).value;
            EventRecords(tx.tables, source, es, idx, os) && EventsSum(tx.tables, tx, tx', es, os) && EventsStored(tx.tables, source, es, tx'.tables)
  {
    idx, os := [], [];
    if es != [] {
      var before, e := es[..|es| - 1], es[|es| - 1];
      assert before + [e] == es;
      EventsSnoc(days, tx, source, before, e);
      idx, os := EventsRecorded(days, tx, source, before);
      idx, os := EventsGoOn(days, tx, AddEvents(days, tx, source, before).value, source, before, e, idx, os);
    }
  }

  // ---------- intervals and days ----------

  function DeltasLate(t: Tables, ds: seq<Delta>): int {
    if ds == [] then 0 else DeltasLate(t, ds[..|ds| - 1]) + if DeltaKept(t, ds[|ds| - 1]) then 0 else 1
  }

  lemma {:induction false} DeltasSnoc(days: Grid, tx: Tx, source: string, ds: seq<Delta>, d: Delta)
    requires source in tx.tables.sources && AddDeltas(days, tx, source, ds + [d]).Ok?
    ensures AddDeltas(days, tx, source, ds).Ok? && AddDelta(days, AddDeltas(days, tx, source, ds).value, source, d).Ok?
    ensures AddDeltas(days, tx, source, ds + [d]) == AddDelta(days, AddDeltas(days, tx, source, ds).value, source, d)
    decreases |ds|
  {
    var all := ds + [d];
    if ds == [] {
      assert all == [d] && all[1..] == [];
    } else {
      assert all[0] == ds[0] && all[1..] == ds[1..] + [d];
      DeltasSnoc(days, AddDelta(days, tx, source, ds[0]).value, source, ds[1..], d);
    }
  }

  /** A kept delta of this name is among them. */
  predicate CarriedDelta(t: Tables, ds: seq<Delta>, id: string, day: bool) {
    exists i :: 0 <= i < |ds| && ds[i].id == id && (IsDay(ds[i]) <==> day) && DeltaKept(t, ds[i])
  }

  lemma CarriedDeltaMore(t: Tables, ds: seq<Delta>, d: Delta, id: string, day: bool)
    ensures CarriedDelta(t, ds + [d], id, day) <==> CarriedDelta(t, ds, id, day) || (d.id == id && (IsDay(d) <==> day) && DeltaKept(t, d))
  {
    var all := ds + [d];
    assert all[|ds|] == d;
    if i :| 0 <= i < |ds| && ds[i].id == id && (IsDay(ds[i]) <==> day) && DeltaKept(t, ds[i]) { assert all[i] == ds[i]; }
  }

  ghost predicate DeltasStored(t: Tables, source: string, ds: seq<Delta>, t': Tables) {
    && (forall id {:trigger DetailKey(source, id, DeltaDetail)} ::
          DetailKey(source, id, DeltaDetail) in t'.details <==> DetailKey(source, id, DeltaDetail) in t.details || CarriedDelta(t, ds, id, false))
    && (forall id {:trigger ImportKey(source, id)} ::
          ImportKey(source, id) in t'.imports <==> ImportKey(source, id) in t.imports || CarriedDelta(t, ds, id, true))
  }

  predicate OnlyDeltas(t: Tables, t': Tables) {
    t' == t.(details := t'.details, imports := t'.imports, metrics := t'.metrics, sources := t'.sources)
  }

  lemma DeltaRecorded(days: Grid, t: Tables, tx: Tx, source: string, ds: seq<Delta>, d: Delta) returns (taken: bool, more: seq<Observation>)
    requires source in tx.tables.sources && AddDelta(days, tx, source, d).Ok?
    requires DeltasStored(t, source, ds, tx.tables) && OnlyDeltas(t, tx.tables)
    ensures var tx' := AddDelta(days, tx, source, d).value;
            && OnlyDeltas(t, tx'.tables) && tx'.accepted == tx.accepted + more
            && tx'.skipped == tx.skipped + (if DeltaKept(t, d) then 0 else 1)
            && DeltasStored(t, source, ds + [d], tx'.tables)
    ensures taken <==> DeltaKept(t, d) && !DeltaStored(tx.tables, source, d)
    ensures if taken then |more| == 1 && RecordsDelta(source, d, more[0]) else more == []
  {
    NormalizeFiles(d.dims);
    assert DeltaKept(t, d) <==> if IsDay(d) then UnixMilli(d.start) >= Cut(tx.tables.dayCutoff) else UnixMilli(d.end) > Cut(tx.tables.detailCutoff);
    taken := DeltaKept(t, d) && !DeltaStored(tx.tables, source, d);
    more := if !taken then []
            else if IsDay(d) then [DayImported(source, d.id, Normalize(d.dims), d.start, d.end, d.up, d.down)]
            else [IntervalSeen(source, d.id, Normalize(d.dims), d.start, d.end, d.up, d.down)];
    assert AddDelta(days, tx, source, d).value.accepted == tx.accepted + more;
    forall id, day ensures CarriedDelta(t, ds + [d], id, day) <==> CarriedDelta(t, ds, id, day) || (d.id == id && (IsDay(d) <==> day) && DeltaKept(t, d)) {
      CarriedDeltaMore(t, ds, d, id, day);
    }
  }

  lemma FreshDeltaIsNew(t: Tables, source: string, ds: seq<Delta>, d: Delta, t': Tables)
    requires DeltasStored(t, source, ds, t')
    ensures FreshDelta(t, source, ds + [d], |ds|) <==> DeltaKept(t, d) && !DeltaStored(t', source, d)
    ensures forall i :: 0 <= i < |ds| ==> (FreshDelta(t, source, ds + [d], i) <==> FreshDelta(t, source, ds, i))
  {
    var all := ds + [d];
    assert all[|ds|] == d && forall i :: 0 <= i < |ds| ==> all[i] == ds[i];
    assert DeltaStored(t', source, d) <==> DeltaStored(t, source, d) || CarriedDelta(t, ds, d.id, IsDay(d));
  }

  lemma DeltaRecordsMore(t: Tables, source: string, ds: seq<Delta>, d: Delta, idx: seq<nat>, os: seq<Observation>, taken: bool, more: seq<Observation>)
    requires DeltaRecords(t, source, ds, idx, os) && (taken <==> FreshDelta(t, source, ds + [d], |ds|))
    requires forall i :: 0 <= i < |ds| ==> (FreshDelta(t, source, ds + [d], i) <==> FreshDelta(t, source, ds, i))
    requires if taken then |more| == 1 && RecordsDelta(source, d, more[0]) else more == []
    ensures DeltaRecords(t, source, ds + [d], if taken then idx + [|ds|] else idx, os + more)
  {
    IndexMore(idx, |ds|);
    assert taken ==> forall k :: 0 <= k < |idx| + 1 ==> (os + more)[k] == if k < |idx| then os[k] else more[0];
  }

  predicate DeltasSum(t: Tables, tx: Tx, tx': Tx, ds: seq<Delta>, os: seq<Observation>) {
    tx'.accepted == tx.accepted + os && tx'.skipped == tx.skipped + DeltasLate(t, ds) && OnlyDeltas(t, tx'.tables)
  }

  lemma DeltasSumMore(t: Tables, tx: Tx, mid: Tx, tx': Tx, ds: seq<Delta>, d: Delta, os: seq<Observation>, more: seq<Observation>)
    requires DeltasSum(t, tx, mid, ds, os) && OnlyDeltas(t, tx'.tables)
    requires tx'.accepted == mid.accepted + more && tx'.skipped == mid.skipped + if DeltaKept(t, d) then 0 else 1
    ensures DeltasSum(t, tx, tx', ds + [d], os + more)
  {
    assert (ds + [d])[..|ds|] == ds;
    assert tx.accepted + (os + more) == (tx.accepted + os) + more;
  }

  lemma DeltasGoOn(days: Grid, tx: Tx, mid: Tx, source: string, ds: seq<Delta>, d: Delta, idx: seq<nat>, os: seq<Observation>)
      returns (idx': seq<nat>, os': seq<Observation>)
    requires DeltaRecords(tx.tables, source, ds, idx, os) && DeltasSum(tx.tables, tx, mid, ds, os) && DeltasStored(tx.tables, source, ds, mid.tables)
    requires source in mid.tables.sources && AddDelta(days, mid, source, d).Ok?
    ensures var tx' := AddDelta(days, mid, source, d).value;
            DeltaRecords(tx.tables, source, ds + [d], idx', os') && DeltasSum(tx.tables, tx, tx', ds + [d], os') && DeltasStored(tx.tables, source, ds + [d], tx'.tables)
  {
    var taken, more := DeltaRecorded(days, tx.tables, mid, source, ds, d);
    FreshDeltaIsNew(tx.tables, source, ds, d, mid.tables);
    DeltaRecordsMore(tx.tables, source, ds, d, idx, os, taken, more);
    idx', os' := if taken then idx + [|ds|] else idx, os + more;
    DeltasSumMore(tx.tables, tx, mid, AddDelta(days, mid, source, d).value, ds, d, os, more);
  }

  lemma {:induction false} DeltasRecorded(days: Grid, tx: Tx, source: string, ds: seq<Delta>) returns (idx: seq<nat>, os: seq<Observation>)
    requires source in tx.tables.sources && AddDeltas(days, tx, source, ds).Ok?
    ensures var tx' := AddDeltas(days, tx, source, ds).value;
            DeltaRecords(tx.tables, source, ds, idx, os) && DeltasSum(tx.tables, tx, tx', ds, os) && DeltasStored(tx.tables, source, ds, tx'.tables)
  {
    idx, os := [], [];
    if ds != [] {
      var before, d := ds[..|ds| - 1], ds[|ds| - 1];
      assert before + [d] == ds;
      DeltasSnoc(days, tx, source, before, d);
      idx, os := DeltasRecorded(days, tx, source, before);
      idx, os := DeltasGoOn(days, tx, AddDeltas(days, tx, source, before).value, source, before, d, idx, os);
    }
  }

  // ---------- the batch ----------

  /** The same as far as deltas are concerned. */
  ghost predicate SameStores(t: Tables, t': Tables) {
    && t'.detailCutoff == t.detailCutoff && t'.dayCutoff == t.dayCutoff && t'.imports == t.imports
    && forall k: DetailKey :: k.kind.DeltaDetail? ==> (k in t'.details <==> k in t.details)
  }

  lemma SameDeltaRecords(t: Tables, t': Tables, source: string, ds: seq<Delta>, idx: seq<nat>, os: seq<Observation>)
    requires SameStores(t, t') && DeltaRecords(t', source, ds, idx, os)
    ensures DeltaRecords(t, source, ds, idx, os) && DeltasLate(t', ds) == DeltasLate(t, ds)
  {
    SameDeltasLate(t, t', ds);
    forall i | 0 <= i < |ds| ensures FreshDelta(t, source, ds, i) <==> FreshDelta(t', source, ds, i) {
      assert forall j :: 0 <= j < |ds| ==> (DeltaKept(t, ds[j]) <==> DeltaKept(t', ds[j]));
    }
  }

  lemma {:induction false} SameDeltasLate(t: Tables, t': Tables, ds: seq<Delta>)
    requires t'.detailCutoff == t.detailCutoff && t'.dayCutoff == t.dayCutoff
    ensures DeltasLate(t', ds) == DeltasLate(t, ds)
  {
    if ds != [] {
      SameDeltasLate(t, t', ds[..|ds| - 1]);
    }
  }

  lemma {:induction false} SameEventsLate(t: Tables, t': Tables, es: seq<Event>)
    requires t'.detailCutoff == t.detailCutoff
    ensures EventsLate(t', es) == EventsLate(t, es)
  {
    if es != [] {
      SameEventsLate(t, t', es[..|es| - 1]);
    }
  }

  lemma SameEventRecords(t: Tables, t': Tables, source: string, es: seq<Event>, idx: seq<nat>, os: seq<Observation>)
    requires t' == t.(timezone := t'.timezone, sources := t'.sources) && EventRecords(t', source, es, idx, os)
    ensures EventRecords(t, source, es, idx, os) && EventsLate(t', es) == EventsLate(t, es)
  {
    SameEventsLate(t, t', es);
    forall i | 0 <= i < |es| ensures FreshEvent(t, source, es, i) <==> FreshEvent(t', source, es, i) {
      assert forall j :: 0 <= j < |es| ==> (EventKept(t, es[j]) <==> EventKept(t', es[j]));
    }
  }

  lemma ObserveRecords(days: Grid, t: Tables, b: Batch) returns (events: seq<nat>, os: seq<Observation>, deltas: seq<nat>, ps: seq<Observation>)
    requires Observe(days, t, b).Ok?
    ensures var tx := Observe(days, t, b).value;
            && EventRecords(t, b.sourceId, b.events, events, os) && DeltaRecords(t, b.sourceId, b.deltas, deltas, ps)
            && tx.accepted == os + ps && tx.skipped == EventsLate(t, b.events) + DeltasLate(t, b.deltas)
  {
    var bound := Bind(t, b).value;
    var start := Tx(bound, 0, []);
    var mid := AddEvents(days, start, b.sourceId, b.events).value;
    events, os := EventsRecorded(days, start, b.sourceId, b.events);
    deltas, ps := DeltasRecorded(days, mid, b.sourceId, b.deltas);
    assert OnlyEvents(bound, mid.tables);
    SameDeltaRecords(t, mid.tables, b.sourceId, b.deltas, deltas, ps);
    SameEventRecords(t, bound, b.sourceId, b.events, events, os);
    assert [] + os == os;
  }

  /** A committed batch puts on record exactly its fresh elements, each once and in order, under
      the columns it came with; what lies below the watermarks is counted as dropped, and what
      is stored already is passed over. */
  lemma BatchRecorded(days: Grid, t: Tables, b: Batch) returns (events: seq<nat>, os: seq<Observation>, deltas: seq<nat>, ps: seq<Observation>)
    requires Transact(days, t, b).Ok?
    ensures var tx := Transact(days, t, b).value;
            && EventRecords(t, b.sourceId, b.events, events, os) && DeltaRecords(t, b.sourceId, b.deltas, deltas, ps)
            && tx.accepted == os + ps && tx.skipped == EventsLate(t, b.events) + DeltasLate(t, b.deltas)
  {
    events, os, deltas, ps := ObserveRecords(days, t, b);
    FinishFrame(days, Observe(days, t, b).value, b, DropsOf(t, b.sourceId));
  }

  // ---------- from the batches to the table ----------

  /** An element of a batch, with the attribution it came with. */
  predicate ElementOf(b: Batch, raw: Observation) {
    || (exists i :: 0 <= i < |b.events| && raw == EventOf(b.sourceId, b.events[i]))
    || (exists i :: 0 <= i < |b.deltas| && raw == DeltaOf(b.sourceId, b.deltas[i]))
  }

  function EventOf(source: string, e: Event): Observation {
    EventSeen(source, e.id, e.dims, e.at, if e.count == 0 then 1 else e.count)
  }

  function DeltaOf(source: string, d: Delta): Observation {
    if d.granularity == "day" then DayImported(source, d.id, d.dims, d.start, d.end, d.up, d.down)
    else IntervalSeen(source, d.id, d.dims, d.start, d.end, d.up, d.down)
  }

  /** All of raw but its attribution, which is filed. */
  predicate Filed(raw: Observation, o: Observation) { o == raw.(dims := o.dims) && FiledAs(raw.dims, o.dims) }

  predicate AllFiled(raws: seq<Observation>, h: seq<Observation>) { |raws| == |h| && forall i :: 0 <= i < |h| ==> Filed(raws[i], h[i]) }

  function RawEvents(b: Batch, idx: seq<nat>): seq<Observation>
    requires forall k :: 0 <= k < |idx| ==> idx[k] < |b.events|
  {
    seq(|idx|, k requires 0 <= k < |idx| => EventOf(b.sourceId, b.events[idx[k]]))
  }

  function RawDeltas(b: Batch, idx: seq<nat>): seq<Observation>
    requires forall k :: 0 <= k < |idx| ==> idx[k] < |b.deltas|
  {
    seq(|idx|, k requires 0 <= k < |idx| => DeltaOf(b.sourceId, b.deltas[idx[k]]))
  }

  lemma EventsFiled(t: Tables, b: Batch, idx: seq<nat>, os: seq<Observation>)
    requires EventRecords(t, b.sourceId, b.events, idx, os)
    ensures AllFiled(RawEvents(b, idx), os) && forall i :: 0 <= i < |os| ==> ElementOf(b, RawEvents(b, idx)[i])
  {
    forall i | 0 <= i < |os| ensures Filed(RawEvents(b, idx)[i], os[i]) {
      assert RecordsEvent(b.sourceId, b.events[idx[i]], os[i]);
    }
  }

  lemma DeltasFiled(t: Tables, b: Batch, idx: seq<nat>, os: seq<Observation>)
    requires DeltaRecords(t, b.sourceId, b.deltas, idx, os)
    ensures AllFiled(RawDeltas(b, idx), os) && forall i :: 0 <= i < |os| ==> ElementOf(b, RawDeltas(b, idx)[i])
  {
    forall i | 0 <= i < |os| ensures Filed(RawDeltas(b, idx)[i], os[i]) {
      assert RecordsDelta(b.sourceId, b.deltas[idx[i]], os[i]);
    }
  }

  lemma BatchFiled(days: Grid, t: Tables, b: Batch) returns (raws: seq<Observation>)
    requires Transact(days, t, b).Ok?
    ensures AllFiled(raws, Transact(days, t, b).value.accepted) && forall i :: 0 <= i < |raws| ==> ElementOf(b, raws[i])
  {
    var events, os, deltas, ps := BatchRecorded(days, t, b);
    raws := PartsFiled(t, b, events, os, deltas, ps);
  }

  lemma PartsFiled(t: Tables, b: Batch, events: seq<nat>, os: seq<Observation>, deltas: seq<nat>, ps: seq<Observation>) returns (raws: seq<Observation>)
    requires EventRecords(t, b.sourceId, b.events, events, os) && DeltaRecords(t, b.sourceId, b.deltas, deltas, ps)
    ensures AllFiled(raws, os + ps) && forall i :: 0 <= i < |raws| ==> ElementOf(b, raws[i])
  {
    var a, c := RawEvents(b, events), RawDeltas(b, deltas);
    EventsFiled(t, b, events, os);
    DeltasFiled(t, b, deltas, ps);
    raws := a + c;
    FiledJoin(a, os, c, ps);
    ElementsJoin(b, a, c);
  }

  lemma ElementsJoin(b: Batch, a: seq<Observation>, c: seq<Observation>)
    requires (forall i :: 0 <= i < |a| ==> ElementOf(b, a[i])) && forall i :: 0 <= i < |c| ==> ElementOf(b, c[i])
    ensures forall i :: 0 <= i < |a + c| ==> ElementOf(b, (a + c)[i])
  {}

  lemma FiledJoin(a: seq<Observation>, h: seq<Observation>, b: seq<Observation>, g: seq<Observation>)
    requires AllFiled(a, h) && AllFiled(b, g)
    ensures AllFiled(a + b, h + g)
  {}

  /** Some batch of the run brought it. */
  predicate Brought(ops: seq<Op>, raw: Observation) { exists i :: 0 <= i < |ops| && ops[i].IngestOp? && ElementOf(ops[i].batch, raw) }

  lemma {:induction false} RunFiled(zones: map<string, Grid>, ops: seq<Op>) returns (raws: seq<Observation>)
    ensures AllFiled(raws, Run(zones, ops).history) && forall i :: 0 <= i < |raws| ==> Brought(ops, raws[i])
  {
    raws := [];
    if ops != [] {
      var before, op := ops[..|ops| - 1], ops[|ops| - 1];
      raws := RunFiled(zones, before);
      raws := OpFiled(zones, Run(zones, before), before, op, raws);
      assert before + [op] == ops;
    }
  }

  lemma OpFiled(zones: map<string, Grid>, w: World, ops: seq<Op>, op: Op, raws: seq<Observation>) returns (all: seq<Observation>)
    requires AllFiled(raws, w.history) && forall i :: 0 <= i < |raws| ==> Brought(ops, raws[i])
    ensures AllFiled(all, Apply(zones, w, op).history) && forall i :: 0 <= i < |all| ==> Brought(ops + [op], all[i])
  {
    var more: seq<Observation> := [];
    if op.IngestOp? && Ingest(zones, w.tables, op.batch, op.storage).Ok? {
      more := BatchFiled(zones[ZoneName(op.batch)], w.tables, op.batch);
      FiledJoin(raws, w.history, more, Ingest(zones, w.tables, op.batch, op.storage).value.accepted);
    }
    BroughtMore(ops, op, raws, more);
    all := raws + more;
  }

  lemma BroughtStays(ops: seq<Op>, op: Op, raw: Observation)
    requires Brought(ops, raw)
    ensures Brought(ops + [op], raw)
  {
    var j :| 0 <= j < |ops| && ops[j].IngestOp? && ElementOf(ops[j].batch, raw);
    assert (ops + [op])[j] == ops[j];
  }

  lemma BroughtMore(ops: seq<Op>, op: Op, raws: seq<Observation>, more: seq<Observation>)
    requires forall i :: 0 <= i < |raws| ==> Brought(ops, raws[i])
    requires (more != [] ==> op.IngestOp?) && forall i :: 0 <= i < |more| ==> ElementOf(op.batch, more[i])
    ensures forall i :: 0 <= i < |raws + more| ==> Brought(ops + [op], (raws + more)[i])
  {
    forall i | 0 <= i < |raws + more| ensures Brought(ops + [op], (raws + more)[i]) {
      if i < |raws| {
        assert Brought(ops, raws[i]);
        BroughtStays(ops, op, raws[i]);
      } else {
        assert ElementOf(op.batch, more[i - |raws|]);
        assert (ops + [op])[|ops|] == op;
      }
    }
  }

  /** What the elements filed under one attribution contribute. */
  function RawSum(raws: seq<Observation>, source: string, x: Dimensions, f: Filter): int {
    if raws == [] then 0
    else
      var raw := raws[|raws| - 1];
      RawSum(raws[..|raws| - 1], source, x, f) + if raw.source == source && FiledAs(raw.dims, x) then Within(raw, f) else 0
  }

  /** One source and one attribution. */
  function Tuple(source: string, x: Dimensions, res: Resolution, lo: Time, hi: Time, c: Column): Filter {
    Filter((s, d) => s == source && d == x, res, lo, hi, c)
  }

  lemma {:induction false} RawIsExpected(raws: seq<Observation>, h: seq<Observation>, source: string, x: Dimensions, f: Filter)
    requires AllFiled(raws, h) && f == Tuple(source, x, f.res, f.lo, f.hi, f.column)
    ensures RawSum(raws, source, x, f) == Expected(h, f)
  {
    if h != [] {
      var raw, o := raws[|raws| - 1], h[|h| - 1];
      RawIsExpected(raws[..|raws| - 1], h[..|h| - 1], source, x, f);
      assert Filed(raw, o);
      if FiledAs(raw.dims, x) { FiledUnderOne(raw.dims, o.dims, x); }
      assert Within(raw, f) == Within(o, f);
    }
  }

  /** After any run the rows of one source and one attribution hold, over any range of whole
      buckets that retention has not reached, exactly what the elements of the batches that are
      filed under it contribute. */
  lemma TupleAnswers(zones: map<string, Grid>, ops: seq<Op>, days: Grid, source: string, x: Dimensions, f: Filter) returns (raws: seq<Observation>)
    requires AllRegular(zones) && Regular(days) && Aligned(days, f) && f == Tuple(source, x, f.res, f.lo, f.hi, f.column)
    requires Pinned(zones, Run(zones, ops).tables, days) && Retained(Run(zones, ops).tables, f)
    ensures AllFiled(raws, Run(zones, ops).history) && (forall i :: 0 <= i < |raws| ==> Brought(ops, raws[i]))
    ensures SumRows(Run(zones, ops).tables.metrics, f) == RawSum(raws, source, x, f)
  {
    raws := RunFiled(zones, ops);
    RawIsExpected(raws, Run(zones, ops).history, source, x, f);
    LedgerAnswersFromHistory(zones, ops, days, f);
  }
}
