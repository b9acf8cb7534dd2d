/** The drops a log's collector reports. */
module TailStatus {
  import opened Wrappers
  import opened Ledger
  import opened Lines
  import opened Tail
  import opened TailRuns
  import opened Appending
  import opened TailLedger
  import Collector
  import Drops
  import History

  // A refused commit puts the position back, but keeps the drops of the poll in the status, and
  // the next poll meets the same lines: what is reported is one pass over the log exactly when
  // no such drops are left. A restart forgets those no commit has stored in between.

  /** What a move does to the status. */
  datatype Outcome = Committed | Refused(dropped: nat) | Forgot | Nothing

  ghost function OutcomeOf(g: Stage, s: Scene, a: Move): Outcome {
    match a
    case Turn(look, disk) => if OfferOf(g, s, look, disk).1.None? then Committed else Refused(PollTail(g.tail, s.memory, look).dropped)
    case Reopen => Forgot
    case Retire(_) => Nothing
  }

  ghost function Outcomes(g: Stage, moves: seq<Move>): seq<Outcome>
    requires Ready(g)
  {
    if moves == [] then []
    else Outcomes(g, moves[..|moves| - 1]) + [OutcomeOf(g, Play(g, moves[..|moves| - 1]), moves[|moves| - 1])]
  }

  /** The drops of refused polls: those the collector reports, and those the ledger has stored. */
  datatype Again = Again(reported: nat, stored: nat)

  function After(r: Again, o: Outcome): Again {
    match o
    case Committed => r.(stored := r.reported)
    case Refused(dropped) => r.(reported := r.reported + dropped)
    case Forgot => r.(reported := r.stored)
    case Nothing => r
  }

  function Repeated(os: seq<Outcome>): Again {
    if os == [] then Again(0, 0) else After(Repeated(os[..|os| - 1]), os[|os| - 1])
  }

  // ---------- when none are left ----------

  predicate NoCommit(os: seq<Outcome>, from: nat, until: nat)
    requires until <= |os|
  {
    forall k :: from <= k < until ==> !os[k].Committed?
  }

  /** A restart before the next commit makes the collector forget move i. */
  predicate Forgotten(os: seq<Outcome>, i: nat)
    requires i < |os|
  {
    exists j :: i < j < |os| && os[j].Forgot? && NoCommit(os, i + 1, j)
  }

  predicate HasDrops(o: Outcome) { o.Refused? && o.dropped > 0 }

  predicate AllForgotten(os: seq<Outcome>) { forall i :: 0 <= i < |os| && HasDrops(os[i]) ==> Forgotten(os, i) }

  /** The same, if the collector were restarted now. */
  predicate AllForgettable(os: seq<Outcome>) {
    forall i :: 0 <= i < |os| && HasDrops(os[i]) ==> Forgotten(os, i) || NoCommit(os, i + 1, |os|)
  }

  lemma ForgottenMore(os: seq<Outcome>, o: Outcome, i: nat)
    requires i < |os|
    ensures Forgotten(os + [o], i) <==> Forgotten(os, i) || (o.Forgot? && NoCommit(os, i + 1, |os|))
  {
    var all := os + [o];
    if Forgotten(os, i) {
      var j :| i < j < |os| && os[j].Forgot? && NoCommit(os, i + 1, j);
      assert all[j].Forgot? && NoCommit(all, i + 1, j);
    }
    if o.Forgot? && NoCommit(os, i + 1, |os|) {
      assert all[|os|].Forgot? && NoCommit(all, i + 1, |os|);
    }
    if Forgotten(all, i) {
      var j :| i < j < |all| && all[j].Forgot? && NoCommit(all, i + 1, j);
      assert forall k :: i + 1 <= k < j ==> os[k] == all[k];
      assert j < |os| ==> os[j].Forgot?;
    }
  }

  lemma UncommittedMore(os: seq<Outcome>, o: Outcome, i: nat)
    requires i <= |os|
    ensures NoCommit(os + [o], i, |os| + 1) <==> NoCommit(os, i, |os|) && !o.Committed?
  {
    assert (os + [o])[|os|] == o;
    assert forall k :: i <= k < |os| ==> (os + [o])[k] == os[k];
  }

  lemma LastNotForgotten(os: seq<Outcome>, o: Outcome)
    ensures !Forgotten(os + [o], |os|) && NoCommit(os + [o], |os| + 1, |os| + 1)
  {}

  lemma AllForgottenMore(os: seq<Outcome>, o: Outcome)
    ensures AllForgotten(os + [o]) <==> !HasDrops(o) && if o.Forgot? then AllForgettable(os) else AllForgotten(os)
  {
    var all := os + [o];
    LastNotForgotten(os, o);
    forall i | 0 <= i < |os| ensures all[i] == os[i] && (Forgotten(all, i) <==> Forgotten(os, i) || (o.Forgot? && NoCommit(os, i + 1, |os|))) {
      ForgottenMore(os, o, i);
    }
    assert all[|os|] == o;
  }

  lemma AllForgettableMore(os: seq<Outcome>, o: Outcome)
    ensures AllForgettable(os + [o]) <==> if o.Committed? then AllForgotten(os) else AllForgettable(os)
  {
    var all := os + [o];
    LastNotForgotten(os, o);
    forall i | 0 <= i < |os|
      ensures all[i] == os[i] && (Forgotten(all, i) <==> Forgotten(os, i) || (o.Forgot? && NoCommit(os, i + 1, |os|)))
      ensures NoCommit(all, i + 1, |all|) <==> NoCommit(os, i + 1, |os|) && !o.Committed?
    {
      ForgottenMore(os, o, i);
      UncommittedMore(os, o, i + 1);
    }
    assert all[|os|] == o;
  }

  /** Nothing is reported again exactly when every refused poll with drops is forgotten by a
      restart before the next commit; nothing is stored again when a restart now would do. */
  lemma {:induction false} RepeatedNoneIff(os: seq<Outcome>)
    ensures Repeated(os).reported == 0 <==> AllForgotten(os)
    ensures Repeated(os).stored == 0 <==> AllForgettable(os)
  {
    if os != [] {
      var before, o := os[..|os| - 1], os[|os| - 1];
      RepeatedNoneIff(before);
      AllForgottenMore(before, o);
      AllForgettableMore(before, o);
      assert before + [o] == os;
    }
  }

  // ---------- what one turn reports ----------

  /** On a file that only grows, a harmless poll drops what its pass drops, and one that fails nothing. */
  lemma PollDrops(c: Config, identity: string, m: Memory, look: Look)
    requires OneFile(identity, look) && (m.open ==> m.restored) && (m.restored ==> Fits(c, identity, look.held, m.position))
    requires PollTail(c, m, look).failed && Begun(c, m, look).Some? ==> look.fails(Begun(c, m, look).value.position.offset)
    ensures var p := PollTail(c, m, look);
            p.dropped == if p.failed then 0 else Swept(c, Begun(c, m, look).value, look).pass.dropped
  {
    if Begun(c, m, look).Some? { BegunFits(c, identity, m, look); }
  }

  lemma HarmlessPrefix(c: Config, acts: seq<Act>, n: nat)
    requires AllHarmless(c, acts) && n <= |acts|
    ensures AllHarmless(c, acts[..n])
  {
    forall i | 0 <= i < n ensures Harmless(c, Run(c, acts[..n][..i]), acts[..n][i]) {
      assert acts[..n][..i] == acts[..i];
    }
  }

  /** What a committed poll adds to the pass of the committed polls. */
  lemma StepDrops(c: Config, identity: string, text: string, l: Life, look: Look)
    requires Follows(c, identity, text, l) && text <= look.held && OneFile(identity, look)
    requires Harmless(c, l, Poll(look, true))
    ensures PassOf(Step(c, l, Poll(look, true)).entries).dropped == PassOf(l.entries).dropped + PollTail(c, l.memory, look).dropped
  {
    FollowsMore(c, identity, text, look.held, l);
    PollDrops(c, identity, l.memory, look);
    var l' := Step(c, l, Poll(look, true));
    if !PollTail(c, l.memory, look).failed { assert l'.entries[..|l'.entries| - 1] == l.entries; }
  }

  /** The collector's own drops, saved and not, against those of the committed polls. */
  ghost predicate Owns(g: Stage, s: Scene, pass: nat, r: Again) {
    Drops.Accounted(g.config.id, Drops.Life(s.book.tables, s.status, pass + r.reported, pass + r.stored))
  }

  lemma OfferAccounted(g: Stage, k: Book, b: Batch, memory: Status, disk: Collector.Disk, own: int, saved: int)
    requires Ready(g) && b.sourceId == g.config.id && b.status == Some(memory)
    requires Drops.Accounted(g.config.id, Drops.Life(k.tables, memory, own, saved))
    ensures var o := g.teller(k, b, disk);
            Drops.Accounted(g.config.id, Drops.Life(o.0.tables, memory, own, if o.1.None? then own else saved))
  {
    var step := Drops.Poll(b, Storage(k.pressure, disk.overBudget, disk.full));
    Drops.StepAccounted(g.zones, g.config.id, Drops.Life(k.tables, memory, own, saved), step);
    assert b.(sourceId := g.config.id, status := Some(memory)) == b;
    assert g.teller(k, b, disk) == Collector.Offer(g.zones, k, b, disk);
  }

  lemma TurnAccounted(g: Stage, s: Scene, look: Look, disk: Collector.Disk, own: int, saved: int)
    requires Ready(g) && Drops.Accounted(g.config.id, Drops.Life(s.book.tables, s.status, own, saved))
    ensures var s', more := Turned(g, s, look, disk), own + PollTail(g.tail, s.memory, look).dropped;
            Drops.Accounted(g.config.id, Drops.Life(s'.book.tables, s'.status, more, if OfferOf(g, s, look, disk).1.None? then more else saved))
  {
    var p := PollTail(g.tail, s.memory, look);
    var status := StatusAfter(s.status, p);
    OfferAccounted(g, s.book, BatchOf(g, p, look.now).(status := Some(status)), status, disk, own + p.dropped, saved);
  }

  /** The drops that turns commit: nothing else changes the pass of the committed polls. */
  ghost function Passed(g: Stage, s: Scene, a: Move): nat {
    if a.Turn? && OfferOf(g, s, a.look, a.disk).1.None? then PollTail(g.tail, s.memory, a.look).dropped else 0
  }

  lemma MoveOwns(g: Stage, s: Scene, a: Move, pass: nat, r: Again)
    requires Ready(g) && Owns(g, s, pass, r)
    ensures Owns(g, Do(g, s, a), pass + Passed(g, s, a), After(r, OutcomeOf(g, s, a)))
  {
    match a
    case Turn(look, disk) => TurnAccounted(g, s, look, disk, pass + r.reported, pass + r.stored);
    case Reopen => Drops.StepAccounted(g.zones, g.config.id, Drops.Life(s.book.tables, s.status, pass + r.reported, pass + r.stored), Drops.Restart);
    case Retire(op) => Drops.RetentionKeepsSources(g.zones, s.book.tables, op);
  }

  /** What a committed poll adds to the pass of the committed polls, in a run. */
  lemma CommitDrops(c: Config, acts: seq<Act>, act: Act, identity: string)
    requires act.Poll? && act.committed && AppendOnly(identity, acts + [act]) && AllHarmless(c, acts + [act])
    ensures PassOf(Step(c, Run(c, acts), act).entries).dropped == PassOf(Run(c, acts).entries).dropped + PollTail(c, Run(c, acts).memory, act.look).dropped
  {
    var all := acts + [act];
    assert all[..|acts|] == acts && all[|acts|] == act;
    AppendOnlyPrefix(identity, all, |acts|);
    HarmlessPrefix(c, all, |acts|);
    HarmlessNeverLoses(c, acts);
    RunFollows(c, identity, acts);
    LastTextIs(acts, act);
    assert Harmless(c, Run(c, all[..|acts|]), all[|acts|]);
    StepDrops(c, identity, LastText(acts), Run(c, acts), act.look);
  }

  lemma ActDrops(c: Config, acts: seq<Act>, act: Act, identity: string)
    requires act.Poll? && AppendOnly(identity, acts + [act]) && AllHarmless(c, acts + [act])
    ensures PassOf(Run(c, acts + [act]).entries).dropped ==
            PassOf(Run(c, acts).entries).dropped + if act.committed then PollTail(c, Run(c, acts).memory, act.look).dropped else 0
  {
    RunMore(c, acts, act);
    if act.committed {
      CommitDrops(c, acts, act, identity);
    } else {
      assert Step(c, Run(c, acts), act).entries == Run(c, acts).entries;
    }
  }

  lemma RestartDrops(c: Config, acts: seq<Act>)
    ensures PassOf(Run(c, acts + [Restart]).entries).dropped == PassOf(Run(c, acts).entries).dropped
  {
    RunMore(c, acts, Restart);
    assert Step(c, Run(c, acts), Restart).entries == Run(c, acts).entries;
  }

  lemma TurnPasses(g: Stage, s: Scene, acts: seq<Act>, look: Look, disk: Collector.Disk, identity: string)
    requires Ready(g) && Mirrors(g, s, Run(g.tail, acts))
    requires var act := Poll(look, OfferOf(g, s, look, disk).1.None?);
             AppendOnly(identity, acts + [act]) && AllHarmless(g.tail, acts + [act])
    ensures var act := Poll(look, OfferOf(g, s, look, disk).1.None?);
            PassOf(Run(g.tail, acts + [act]).entries).dropped == PassOf(Run(g.tail, acts).entries).dropped + Passed(g, s, Turn(look, disk))
  {
    ActDrops(g.tail, acts, Poll(look, OfferOf(g, s, look, disk).1.None?), identity);
  }

  lemma MovePasses(g: Stage, s: Scene, acts: seq<Act>, a: Move, identity: string)
    requires Ready(g) && Mirrors(g, s, Run(g.tail, acts))
    requires AppendOnly(identity, acts + Fate(g, s, a)) && AllHarmless(g.tail, acts + Fate(g, s, a))
    ensures PassOf(Run(g.tail, acts + Fate(g, s, a)).entries).dropped == PassOf(Run(g.tail, acts).entries).dropped + Passed(g, s, a)
  {
    match a
    case Turn(look, disk) => TurnPasses(g, s, acts, look, disk, identity);
    case Reopen => RestartDrops(g.tail, acts);
    case Retire(_) => assert acts + [] == acts;
  }

  ghost function PassedBy(g: Stage, moves: seq<Move>): nat
    requires Ready(g)
  {
    if moves == [] then 0
    else PassedBy(g, moves[..|moves| - 1]) + Passed(g, Play(g, moves[..|moves| - 1]), moves[|moves| - 1])
  }

  lemma {:induction false} PlayPasses(g: Stage, moves: seq<Move>, identity: string)
    requires Ready(g) && AppendOnly(identity, Acts(g, moves)) && AllHarmless(g.tail, Acts(g, moves))
    ensures PassOf(Run(g.tail, Acts(g, moves)).entries).dropped == PassedBy(g, moves)
  {
    if moves != [] {
      var before := moves[..|moves| - 1];
      var acts := Acts(g, before);
      assert Acts(g, moves)[..|acts|] == acts;
      AppendOnlyPrefix(identity, Acts(g, moves), |acts|);
      HarmlessPrefix(g.tail, Acts(g, moves), |acts|);
      PlayPasses(g, before, identity);
      PlayIsTail(g, before);
      MovePasses(g, Play(g, before), acts, moves[|moves| - 1], identity);
    }
  }

  lemma OwnsAtStart(g: Stage)
    requires Ready(g)
    ensures Owns(g, Play(g, []), 0, Again(0, 0))
  {}

  lemma {:induction false} PlayOwns(g: Stage, moves: seq<Move>)
    requires Ready(g)
    ensures Owns(g, Play(g, moves), PassedBy(g, moves), Repeated(Outcomes(g, moves)))
  {
    if moves == [] {
      OwnsAtStart(g);
    } else {
      var before := moves[..|moves| - 1];
      PlayOwns(g, before);
      MoveOwns(g, Play(g, before), moves[|moves| - 1], PassedBy(g, before), Repeated(Outcomes(g, before)));
      assert Outcomes(g, moves)[..|Outcomes(g, before)|] == Outcomes(g, before);
    }
  }

  // ---------- over a run ----------

  /** What a status counts besides the drops of retention. */
  function OwnDrops(s: Status): int { s.droppedEvents - s.retentionDropped }

  lemma OwnsMeans(g: Stage, s: Scene, pass: nat, r: Again)
    requires Owns(g, s, pass, r)
    ensures OwnDrops(s.status) == pass + r.reported && OwnDrops(Recalled(g, s.book.tables)) == pass + r.stored
  {}

  lemma OnceIff(own: int, saved: int, pass: int, os: seq<Outcome>)
    requires own == pass + Repeated(os).reported && saved == pass + Repeated(os).stored
    ensures own == pass <==> AllForgotten(os)
    ensures saved == pass <==> AllForgettable(os)
  {
    RepeatedNoneIff(os);
  }

  /** On a file that only grows, when reads only ever fail at a poll's first byte, whatever is
      refused, restarted or removed: the collector reports the drops of the committed polls and
      those of the refused ones that it has not forgotten, and the ledger those it had stored. */
  lemma DropsReported(g: Stage, moves: seq<Move>, identity: string)
    requires Ready(g) && AppendOnly(identity, Acts(g, moves)) && AllHarmless(g.tail, Acts(g, moves))
    ensures var pass := PassOf(Run(g.tail, Acts(g, moves)).entries).dropped;
            && OwnDrops(Play(g, moves).status) == pass + Repeated(Outcomes(g, moves)).reported
            && OwnDrops(Recalled(g, Play(g, moves).book.tables)) == pass + Repeated(Outcomes(g, moves)).stored
  {
    PlayOwns(g, moves);
    PlayPasses(g, moves, identity);
    OwnsMeans(g, Play(g, moves), PassedBy(g, moves), Repeated(Outcomes(g, moves)));
  }

  lemma PassedOnceIff(g: Stage, moves: seq<Move>, identity: string)
    requires Ready(g) && AppendOnly(identity, Acts(g, moves)) && AllHarmless(g.tail, Acts(g, moves))
    ensures var pass := PassOf(Run(g.tail, Acts(g, moves)).entries).dropped;
            && (OwnDrops(Play(g, moves).status) == pass <==> AllForgotten(Outcomes(g, moves)))
            && (OwnDrops(Recalled(g, Play(g, moves).book.tables)) == pass <==> AllForgettable(Outcomes(g, moves)))
  {
    DropsReported(g, moves, identity);
    OnceIff(OwnDrops(Play(g, moves).status), OwnDrops(Recalled(g, Play(g, moves).book.tables)),
            PassOf(Run(g.tail, Acts(g, moves)).entries).dropped, Outcomes(g, moves));
  }

  lemma PassIsOnce(c: Config, identity: string, acts: seq<Act>)
    requires AppendOnly(identity, acts) && AllHarmless(c, acts) && Run(c, acts).entries != []
    ensures var es := Run(c, acts).entries;
            var last := es[|es| - 1];
            && From(es[0]) <= Until(last) <= |last.begin.text|
            && OnePass(LogOf(c, last.begin.position), last.begin.text, From(es[0]), Until(last), false, ClockOf(es)).dropped == PassOf(es).dropped
  {
    AppendedExactlyOnce(c, identity, acts);
  }

  /** They are those of one pass over the file up to the stored position exactly when every
      refused turn with drops was followed by a restart before the next commit. */
  lemma DropsReportedOnceIff(g: Stage, moves: seq<Move>, identity: string)
    requires Ready(g) && AppendOnly(identity, Acts(g, moves)) && AllHarmless(g.tail, Acts(g, moves))
    requires Run(g.tail, Acts(g, moves)).entries != []
    ensures var es := Run(g.tail, Acts(g, moves)).entries;
            var last := es[|es| - 1];
            && From(es[0]) <= Until(last) <= |last.begin.text|
            && var once := OnePass(LogOf(g.tail, last.begin.position), last.begin.text, From(es[0]), Until(last), false, ClockOf(es)).dropped;
               && (OwnDrops(Play(g, moves).status) == once <==> AllForgotten(Outcomes(g, moves)))
               && (OwnDrops(Recalled(g, Play(g, moves).book.tables)) == once <==> AllForgettable(Outcomes(g, moves)))
  {
    PassIsOnce(g.tail, identity, Acts(g, moves));
    PassedOnceIff(g, moves, identity);
  }
}
