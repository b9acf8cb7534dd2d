/** A collector and a log of which CountedTwice speaks. */
module TwiceExample {
  import opened Wrappers
  import opened Clock
  import opened Calendar
  import opened Ledger
  import opened SourceId
  import opened Lines
  import opened Tail
  import opened TailRuns
  import opened Appending
  import opened TailLedger
  import opened CountedTwice
  import History
  import Collector

  // ---------- days in UTC ----------

  function DayStart(t: Time): Time { t - t % 86_400_000_000_000 }

  function UtcDays(): Grid { Grid(t => DayStart(t), b => b + 86_400_000_000_000) }

  lemma DayStartHolds(t: Time)
    ensures DayStart(t) <= t < DayStart(t) + 86_400_000_000_000
    ensures DayStart(t) % 86_400_000_000_000 == 0 && DayStart(t) % 60_000_000_000 == 0
  {
    var q := t / 86_400_000_000_000;
    assert DayStart(t) == q * 86_400_000_000_000;
    assert DayStart(t) == (q * 1440) * 60_000_000_000;
  }

  lemma DayStartShared(t: Time, u: Time)
    requires DayStart(t) <= u < DayStart(t) + 86_400_000_000_000
    ensures DayStart(u) == DayStart(t)
  {
    var q := t / 86_400_000_000_000;
    assert DayStart(t) == q * 86_400_000_000_000;
    assert u / 86_400_000_000_000 == q;
  }

  lemma UtcRegular()
    ensures Regular(UtcDays())
  {
    var g := UtcDays();
    forall t ensures g.floor(t) <= t < g.after(g.floor(t)) && g.floor(t) % 60_000_000_000 == 0 {
      DayStartHolds(t);
    }
    forall t, u | g.floor(t) <= u < g.after(g.floor(t)) ensures g.floor(u) == g.floor(t) {
      DayStartShared(t, u);
    }
  }

  lemma DayIsAligned(days: Grid, t: Time)
    requires days == UtcDays()
    ensures IsBoundary(days, DayStart(t)) && IsBoundary(days, DayStart(t) + 86_400_000_000_000)
    ensures DayStart(t) <= t < DayStart(t) + 86_400_000_000_000
  {
    UtcRegular();
    EndIsBoundary(days, t);
  }

  // ---------- a digest, a stamp, and a text for positions ----------

  function Stamp(t: Time): string { if t < 0 then "-" + Decimal(-t) else Decimal(t) }

  function Names(): Naming { Naming(s => "h" + s, t => Stamp(t)) }

  lemma DecimalDigits(n: nat)
    ensures Decimal(n) != "" && IsDigit(Decimal(n)[0])
  {
    if n >= 10 { DecimalDigits(n / 10); }
  }

  lemma StampDetermines(s: Time, t: Time)
    requires Stamp(s) == Stamp(t)
    ensures s == t
  {
    DecimalReads(if s < 0 then -s else s);
    DecimalReads(if t < 0 then -t else t);
    DecimalDigits(if s < 0 then -s else s);
    DecimalDigits(if t < 0 then -t else t);
    assert s < 0 ==> Stamp(s)[1..] == Decimal(-s);
    assert t < 0 ==> Stamp(t)[1..] == Decimal(-t);
  }

  lemma NamesDiffer()
    ensures Injective(Names()) && forall s :: Names().digest(s) != ""
  {
    forall s, t | Names().digest(s) == Names().digest(t) ensures s == t {
      assert Names().digest(s)[1..] == s && Names().digest(t)[1..] == t;
    }
    forall s, t | Names().stamp(s) == Names().stamp(t) ensures s == t {
      StampDetermines(s, t);
    }
  }

  function Parts(p: Position): seq<string> {
    [p.identity, Decimal(p.offset), p.anchor, Decimal(p.generation), if p.skipping then "1" else "0"]
  }

  function Text(p: Position): string { Encode(Parts(p)) }

  function Reads(s: string): Option<Position> {
    match Decode(s)
    case None => None
    case Some(ps) => if |ps| == 5 then Some(Position(ps[0], Number(ps[1]), ps[2], Number(ps[3]), ps[4] == "1")) else None
  }

  lemma TextReads(p: Position)
    ensures Reads(Text(p)) == Some(p)
  {
    DecodeEncodes(Parts(p));
    DecimalReads(p.offset);
    DecimalReads(p.generation);
  }

  // ---------- how long they get ----------

  /** Numbers below top have at most k digits. */
  ghost predicate Within(top: nat, k: nat) { forall n: nat {:trigger Decimal(n)} :: n < top ==> |Decimal(n)| <= k }

  lemma WithinMore(top: nat, k: nat)
    requires Within(top, k) && 0 < k
    ensures Within(10 * top, k + 1)
  {
    forall n: nat | n < 10 * top ensures |Decimal(n)| <= k + 1 {
      if n >= 10 { assert n / 10 < top; }
    }
  }

  lemma WithinThousand(top: nat, k: nat)
    requires Within(top, k) && 0 < k
    ensures Within(1000 * top, k + 3)
  {
    WithinMore(top, k);
    WithinMore(10 * top, k + 1);
    WithinMore(100 * top, k + 2);
  }

  /** Instants from the epoch to the year 2286. */
  predicate Recent(t: Time) { 0 <= t < 10_000_000_000_000_000_000 }

  lemma StampShort(t: Time)
    requires Recent(t)
    ensures |Stamp(t)| <= 19
  {
    assert Within(10, 1);
    WithinThousand(10, 1);
    WithinThousand(10_000, 4);
    WithinThousand(10_000_000, 7);
    WithinThousand(10_000_000_000, 10);
    WithinThousand(10_000_000_000_000, 13);
    WithinThousand(10_000_000_000_000_000, 16);
  }

  lemma {:induction false} DecimalAtMost(n: nat)
    ensures |Decimal(n)| <= n + 1
  {
    if n >= 10 { DecimalAtMost(n / 10); }
  }

  function Bulk(parts: seq<string>): nat { if parts == [] then 0 else 2 * |parts[0]| + 2 + Bulk(parts[1..]) }

  lemma {:induction false} EncodeShort(parts: seq<string>)
    ensures |Encode(parts)| <= Bulk(parts)
  {
    if parts != [] {
      DecimalAtMost(|parts[0]|);
      EncodeShort(parts[1..]);
    }
  }

  lemma FiveShort(a: string, b: string, c: string, d: string, e: string)
    ensures |Encode([a, b, c, d, e])| <= 2 * (|a| + |b| + |c| + |d| + |e|) + 10
  {
    EncodeShort([a, b, c, d, e]);
    assert [a, b, c, d, e][1..] == [b, c, d, e] && [b, c, d, e][1..] == [c, d, e] && [c, d, e][1..] == [d, e] && [d, e][1..] == [e] && [e][1..] == [];
    assert Bulk([e]) == 2 * |e| + 2;
    assert Bulk([d, e]) == 2 * (|d| + |e|) + 4;
    assert Bulk([b, c, d, e]) == 2 * (|b| + |c| + |d| + |e|) + 8;
  }

  predicate Small(p: Position, n: nat) {
    |p.identity| <= 1 && p.offset <= 2000 && |p.anchor| <= 200 && p.generation <= n
  }

  lemma SmallText(p: Position, n: nat)
    requires Small(p, n) && n <= 100
    ensures |Text(p)| <= 1048576
  {
    FiveShort(p.identity, Decimal(p.offset), p.anchor, Decimal(p.generation), if p.skipping then "1" else "0");
    DecimalAtMost(p.offset);
    DecimalAtMost(p.generation);
  }

  lemma AnchorShort(c: Config, text: string, offset: nat)
    requires offset <= |text| && c.naming == Names()
    ensures |Anchor(c, text, offset)| <= 200
  {
    var window := text[if offset < 64 then 0 else offset - 64..offset];
    EncodeShort([window]);
    assert [window][1..] == [];
  }

  /** A look at a short file. */
  predicate ShortLook(look: Look) {
    && look.path.Some? && |look.path.value.identity| <= 1 && |look.path.value.text| <= 2000
    && |look.held| <= 2000 && look.after.Some? && |look.after.value| <= 1
  }

  lemma BegunSmall(c: Config, m: Memory, look: Look, n: nat)
    requires c.naming == Names() && ShortLook(look) && Small(m.position, n)
    ensures Begun(c, m, look).Some? && Small(Begun(c, m, look).value.position, n + 2) && |Begun(c, m, look).value.text| <= 2000
  {
    AnchorShort(c, look.path.value.text, |look.path.value.text|);
  }

  lemma PollSmall(c: Config, m: Memory, look: Look, n: nat)
    requires c.naming == Names() && ShortLook(look) && Small(m.position, n)
    ensures Small(PollTail(c, m, look).memory.position, n + 3)
  {
    BegunSmall(c, m, look, n);
    var b := Begun(c, m, look).value;
    AnchorShort(c, b.text, Swept(c, b, look).offset);
  }

  lemma StepSmall(c: Config, l: Life, look: Look, n: nat)
    requires c.naming == Names() && ShortLook(look) && Small(l.memory.position, n)
    ensures Small(Step(c, l, Poll(look, true)).memory.position, n + 3)
  {
    PollSmall(c, l.memory, look, n);
  }

  lemma TwiceLooksShort(line: string, clock: nat -> Time, n: nat)
    requires |line| < 1000
    ensures ShortLook(TwiceLook(line, clock, n))
  {}

  predicate SmallAfter(c: Config, line: string, clock: nat -> Time, n: nat) {
    Small(Run(c, TwiceRun(line, clock, n)).memory.position, 3 * n)
  }

  lemma SmallFirst(c: Config, line: string, clock: nat -> Time)
    ensures SmallAfter(c, line, clock, 0)
  {
    assert TwiceRun(line, clock, 0) == [] && Run(c, []) == Life(Fresh(None), None, []);
  }

  lemma SmallNext(c: Config, line: string, clock: nat -> Time, n: nat)
    requires c.naming == Names() && |line| < 1000 && SmallAfter(c, line, clock, n)
    ensures SmallAfter(c, line, clock, n + 1)
  {
    var l, look := Run(c, TwiceRun(line, clock, n)), TwiceLook(line, clock, n);
    TwiceLooksShort(line, clock, n);
    StepSmall(c, l, look, 3 * n);
    TwiceNext(c, line, clock, n);
  }

  lemma {:induction false} PositionsSmall(c: Config, line: string, clock: nat -> Time, n: nat)
    requires c.naming == Names() && |line| < 1000
    ensures SmallAfter(c, line, clock, n)
  {
    if n == 0 {
      SmallFirst(c, line, clock);
    } else {
      PositionsSmall(c, line, clock, n - 1);
      SmallNext(c, line, clock, n - 1);
    }
  }

  lemma YieldSmall(c: Config, line: string, clock: nat -> Time, n: nat)
    requires c.naming == Names() && |line| < 1000 && n < 4
    ensures |Text(YieldAt(c, line, clock, n).memory.position)| <= 1048576
  {
    PositionsSmall(c, line, clock, n);
    TwiceLooksShort(line, clock, n);
    PollSmall(c, Run(c, TwiceRun(line, clock, n)).memory, TwiceLook(line, clock, n), 3 * n);
    SmallText(YieldAt(c, line, clock, n).memory.position, 3 * n + 3);
  }

  // ---------- the stage ----------

  function Zones(): map<string, Grid> { map["UTC" := UtcDays()] }

  lemma ZonesRegular()
    ensures AllRegular(Zones())
  {
    UtcRegular();
  }

  ghost function Counting(): Collector.Teller {
    ZonesRegular();
    (k, b, d) => Collector.Offer(Zones(), k, b, d)
  }

  /** The collector of one log, in whose lines it finds one thing said. */
  ghost function StageOf(line: string, p: Parsed): Stage {
    Stage(Zones(), Counting(),
          Collector.Config("s", "access", "", "", "UTC", 30_000_000_000, (_, _) => ""),
          Config("s", 30_000_000_000, Names(), (text: string) => if text == line then Some(p) else None, 65_536),
          p => Text(p), s => Reads(s))
  }

  /** A poll every ten seconds. */
  function Ticks(from: Time): nat -> Time { (n: nat) => from + 10_000_000_000 * n }

  lemma StageReady(line: string, p: Parsed)
    ensures Ready(StageOf(line, p)) && Usable(StageOf(line, p))
  {
    var g := StageOf(line, p);
    ZonesRegular();
    forall q ensures g.read(g.render(q)) == Some(q) {
      TextReads(q);
    }
  }

  lemma IdShort(c: Config, generation: nat, p: Parsed)
    requires c.naming == Names() && c.source == "s" && generation <= 1 && Recent(p.at)
    ensures |LineEvent(c, generation, p).id| <= 512
  {
    var stamp := Stamp(p.at);
    StampShort(p.at);
    FiveShort(c.source, "f", Decimal(generation), Decimal(0), stamp);
    assert LineEvent(c, generation, p).id == "h" + Encode([c.source, "f", Decimal(generation), Decimal(0), stamp]);
  }

  lemma StageSays(line: string, p: Parsed)
    requires IsLine(line, 65_536) && Recent(p.at)
    ensures var c, clock := StageOf(line, p).tail, Ticks(p.at);
            && Says(c, line, p, clock(1)) && OnlyFirst(c) && c.naming == Names() && c.source == "s"
            && 0 <= clock(0) < clock(1) < clock(2) < clock(3) && clock(1) - clock(0) <= MAX_SPAN
  {}

  /** Any line that says something, stamped before the year 2286, makes such a scene. */
  lemma SceneFits(line: string, p: Parsed)
    requires IsLine(line, 65_536) && Recent(p.at) && ValidDims(p.dims)
    ensures Scenario(StageOf(line, p), line, Ticks(p.at), p)
  {
    var g, clock := StageOf(line, p), Ticks(p.at);
    StageReady(line, p);
    StageSays(line, p);
    NamesDiffer();
    IdShort(g.tail, 0, p);
    IdShort(g.tail, 1, p);
    forall n: nat | n < 4 ensures FitsCheckpoint(g, YieldAt(g.tail, line, clock, n).memory.position) {
      YieldSmall(g.tail, line, clock, n);
    }
  }

  // ---------- one line, counted as two ----------

  /** The events of the source on the UTC day of t. */
  function EventsOfDay(t: Time): History.Filter {
    History.Filter((id, _) => id == "s", Day, DayStart(t), DayStart(t) + 86_400_000_000_000, Column.Events)
  }

  /** All of the file, read without fail: what a reader would count. */
  function LinesThatCount(c: Config, line: string, now: Time): nat {
    |OnePass(LogOf(c, Position("f", 0, "", 1, false)), Grows(line), 0, |Grows(line)|, false, Always(now)).events|
  }

  lemma ScenePinned(g: Stage, line: string, clock: nat -> Time, p: Parsed)
    requires Scenario(g, line, clock, p) && g.config.timezone == "UTC" && g.zones == Zones()
    ensures History.Pinned(g.zones, Play(g, TwiceMoves(line, clock, 4)).book.tables, UtcDays())
  {
    AllTaken(g, line, clock, p, 4);
  }

  /** Whatever such a line says, there is a run in which one failing read makes two of it. */
  lemma AnyLineCountsTwice(line: string, p: Parsed)
    requires IsLine(line, 65_536) && Recent(p.at) && ValidDims(p.dims)
    ensures var g, clock := StageOf(line, p), Ticks(p.at);
            && Ready(g) && AppendOnly("f", Acts(g, TwiceMoves(line, clock, 4))) && LinesThatCount(g.tail, line, clock(3)) == 1
            && History.SumRows(Play(g, TwiceMoves(line, clock, 4)).book.tables.metrics, EventsOfDay(p.at)) == 2
  {
    var g, clock := StageOf(line, p), Ticks(p.at);
    SceneFits(line, p);
    ScenePinned(g, line, clock, p);
    UtcRegular();
    DayIsAligned(UtcDays(), p.at);
    TableCountsTwice(g, line, clock, p, UtcDays(), EventsOfDay(p.at));
  }

  const LINE := "2024/01/01 00:00:00 " + "1.2.3.4:5 " + "accepted " + "tcp:a.b:443" + "\n"

  const SAID := Parsed(1_704_067_200_000_000_000, Dimensions("1.2.3.4", "a.b", "", "", ""))

  lemma LineIsLine(line: string)
    requires line == LINE
    ensures IsLine(line, 65_536)
  {
    var stamp, client, verb, target := "2024/01/01 00:00:00 ", "1.2.3.4:5 ", "accepted ", "tcp:a.b:443";
    assert '\n' !in stamp && '\n' !in client && '\n' !in verb && '\n' !in target;
    assert line == (stamp + client + verb + target) + "\n";
  }

  /** One such line, and nothing left to ask for. */
  lemma OneLineCountsTwice()
    ensures var g, clock := StageOf(LINE, SAID), Ticks(SAID.at);
            && Scenario(g, LINE, clock, SAID) && LinesThatCount(g.tail, LINE, clock(3)) == 1
            && History.SumRows(Play(g, TwiceMoves(LINE, clock, 4)).book.tables.metrics, EventsOfDay(SAID.at)) == 2
  {
    LineIsLine(LINE);
    SceneFits(LINE, SAID);
    AnyLineCountsTwice(LINE, SAID);
  }
}
