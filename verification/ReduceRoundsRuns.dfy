/**
  What the reduce channel promises over every run: one leader a round, no work on a
  round before the previous one is over, sources that stay put while they are read,
  complete results, and a round that cannot get stuck.
 */
module ReduceRoundsRuns {
  import opened Options
  import opened Counting
  import opened ReduceRounds
  import opened ReduceRoundsSafety
  import opened ReduceRoundsSteps

  /** Who moves, and which channel its scan looks at. */
  type Schedule = seq<(nat, nat)>

  predicate Legal(cfg: Config, sched: Schedule) { forall i :: 0 <= i < |sched| ==> sched[i].0 < cfg.threads }

  ghost function After(cfg: Config, sched: Schedule): (s: State)
    requires cfg.Ok() && Legal(cfg, sched)
    ensures Shape(cfg, s)
  {
    if sched == [] then Init(cfg)
    else
      var s := After(cfg, sched[..|sched| - 1]);
      var (t, j) := sched[|sched| - 1];
      Step(cfg, s, t, j)
  }

  lemma {:induction false} EveryRun(cfg: Config, sched: Schedule)
    requires cfg.Ok() && Legal(cfg, sched)
    ensures Inv(cfg, After(cfg, sched)) && Reading(After(cfg, sched))
  {
    hide Inv, Step, Shape;
    if sched == [] {
      InitInv(cfg);
    } else {
      var before := sched[..|sched| - 1];
      EveryRun(cfg, before);
      var (t, j) := sched[|sched| - 1];
      StepInv(cfg, After(cfg, before), t, j);
      StepReading(cfg, After(cfg, before), t, j);
    }
  }

  // ------------------------------------------------------------------ sources stay while read

  /** A thread at Fold(j) or Mark(j) is reading a source that is still on offer. */
  predicate Reading(s: State) {
    && |s.buf| == |s.th|
    && forall t :: 0 <= t < |s.th| && (s.th[t].pc.Fold? || s.th[t].pc.Mark?) ==>
         s.th[t].pc.j < |s.buf| && s.buf[s.th[t].pc.j] == Some(s.round)
  }

  lemma StepReading(cfg: Config, s: State, t: nat, j: nat)
    requires Inv(cfg, s) && Reading(s) && t < cfg.threads
    ensures Reading(Step(cfg, s, t, j))
  {
    hide Inv, Step;
    ShapeOf(cfg, s);
    var s' := Step(cfg, s, t, j);
    forall u | 0 <= u < |s'.th| && (s'.th[u].pc.Fold? || s'.th[u].pc.Mark?)
      ensures s'.th[u].pc.j < |s'.buf| && s'.buf[s'.th[u].pc.j] == Some(s'.round)
    {
      if u == t { ReaderStep(cfg, s, t, j); } else { OtherReader(cfg, s, t, j, u); }
    }
  }

  /** The stepping thread itself reads on. */
  lemma ReaderStep(cfg: Config, s: State, t: nat, j: nat)
    requires Inv(cfg, s) && Reading(s) && t < cfg.threads
    requires var pc := Step(cfg, s, t, j).th[t].pc; pc.Fold? || pc.Mark?
    ensures var s' := Step(cfg, s, t, j);
            s'.th[t].pc.j < |s'.buf| && s'.buf[s'.th[t].pc.j] == Some(s'.round)
  {
    hide Inv, Step, AllIn;
    ShapeOf(cfg, s);
    Here(cfg, s, t);
    ReaderMoves(cfg, s, t, j);
    if s.th[t].pc.Scan? && j < cfg.threads && j !in s.th[t].done { SeenIsCurrent(cfg, s, t, j); }
  }

  lemma ReaderMoves(cfg: Config, s: State, t: nat, j: nat)
    requires Shape(cfg, s) && t < cfg.threads && (s.th[t].pc.Mark? ==> s.th[t].pc.j < cfg.threads)
    requires var pc := Step(cfg, s, t, j).th[t].pc; pc.Fold? || pc.Mark?
    ensures var s' := Step(cfg, s, t, j);
            var pc := s'.th[t].pc;
            && s'.buf == s.buf && s'.round == s.round
            && (if s.th[t].pc.Fold? then pc.j == s.th[t].pc.j
                else s.th[t].pc.Scan? && pc.j == j < cfg.threads && j !in s.th[t].done && s.buf[j].Some?)
  {
    hide WorkStep, AllIn, LeaderStep;
    if Leading(s.th[t].pc) { LeaderNeverReads(cfg, s, t); }
    WorkMoves(cfg, s, t, j);
  }

  lemma LeaderNeverReads(cfg: Config, s: State, t: nat)
    requires Shape(cfg, s) && t < cfg.threads && Leading(s.th[t].pc)
    ensures var pc := LeaderStep(cfg, s, t).th[t].pc; !pc.Fold? && !pc.Mark?
  {
  }

  lemma WorkMoves(cfg: Config, s: State, t: nat, j: nat)
    requires Shape(cfg, s) && t < cfg.threads && (s.th[t].pc.Mark? ==> s.th[t].pc.j < cfg.threads)
    ensures var s' := WorkStep(cfg, s, t, j);
            var pc := s'.th[t].pc;
            (pc.Fold? || pc.Mark?) && !s.th[t].pc.Out? && !s.th[t].pc.WaitReady? && !s.th[t].pc.Elect?
            && !s.th[t].pc.TryCas? && !Leading(s.th[t].pc) && !Trailing(s.th[t].pc) ==>
              && s'.buf == s.buf && s'.round == s.round
              && (if s.th[t].pc.Fold? then pc.j == s.th[t].pc.j
                  else s.th[t].pc.Scan? && pc.j == j < cfg.threads && j !in s.th[t].done && s.buf[j].Some?)
  {
    hide AllIn;
  }

  /** A step of thread t leaves alone what thread u reads. */
  lemma OtherReader(cfg: Config, s: State, t: nat, j: nat, u: nat)
    requires Inv(cfg, s) && Reading(s) && t < cfg.threads && u < cfg.threads && u != t
    requires s.th[u].pc.Fold? || s.th[u].pc.Mark? || Step(cfg, s, t, j).th[u].pc.Fold? || Step(cfg, s, t, j).th[u].pc.Mark?
    ensures var s' := Step(cfg, s, t, j);
            s'.th[u] == s.th[u] && s'.th[u].pc.j < |s'.buf| && s'.buf[s'.th[u].pc.j] == Some(s'.round)
  {
    hide Inv, Step, AllIn, Folded, Exactly, Below, Marks;
    ShapeOf(cfg, s);
    OnlyOwn(cfg, s, t, j, u);
    var i := s.th[u].pc.j;
    Here(cfg, s, u);
    Early(cfg, s, u);
    Here(cfg, s, t);
    Held(cfg, s, u, i);
    if i != t { OnlyOwn(cfg, s, t, j, i); }
  }

  /** The owner of a source being read has neither left nor reached its clear. */
  lemma Held(cfg: Config, s: State, u: nat, i: nat)
    requires Inv(cfg, s) && u < cfg.threads && i < cfg.threads
    requires Scanning(s.th[u].pc) && i !in s.th[u].done && s.buf[i].Some?
    ensures !s.th[i].pc.Out? && !s.th[i].pc.NClear? && !s.th[i].pc.LClear?
  {
    hide Inv, AllIn, Below, Marks;
    ShapeOf(cfg, s);
    Here(cfg, s, i);
    SeenIsCurrent(cfg, s, u, i);
  }

  /** A step touches nobody else's locals, and only its own source slot; only LFlip turns the round. */
  lemma OnlyOwn(cfg: Config, s: State, t: nat, j: nat, u: nat)
    requires Shape(cfg, s) && t < cfg.threads && u < cfg.threads && u != t
    ensures var s' := Step(cfg, s, t, j);
            && s'.th[u] == s.th[u] && s'.buf[u] == s.buf[u]
            && (s'.buf[t] == s.buf[t] || s.th[t].pc.Out? || s.th[t].pc.NClear? || s.th[t].pc.LClear?)
            && (s'.round == s.round || s.th[t].pc.LFlip?)
  {
    hide WorkStep, LeaderStep;
    OnlyOwnWork(cfg, s, t, j, u);
    OnlyOwnLead(cfg, s, t, u);
  }

  lemma OnlyOwnWork(cfg: Config, s: State, t: nat, j: nat, u: nat)
    requires Shape(cfg, s) && t < cfg.threads && u < cfg.threads && u != t
    ensures var s' := WorkStep(cfg, s, t, j); s'.th[u] == s.th[u] && s'.buf == s.buf && s'.round == s.round
  {
    hide AllIn;
  }

  lemma OnlyOwnLead(cfg: Config, s: State, t: nat, u: nat)
    requires Shape(cfg, s) && t < cfg.threads && u < cfg.threads && u != t
    ensures var s' := LeaderStep(cfg, s, t);
            && s'.th[u] == s.th[u] && s'.buf[u] == s.buf[u]
            && (s'.buf[t] == s.buf[t] || s.th[t].pc.LClear?) && (s'.round == s.round || s.th[t].pc.LFlip?)
  {
  }

  // ------------------------------------------------------------------ theorems

  /** At most one thread leads, and nobody leaves or follows without a leader there. */
  lemma {:induction false} OneLeader(cfg: Config, sched: Schedule, t: nat, u: nat)
    requires cfg.Ok() && Legal(cfg, sched) && t < cfg.threads && u < cfg.threads
    ensures var s := After(cfg, sched);
            && (Leading(s.th[t].pc) && Leading(s.th[u].pc) ==> t == u)
            && (cfg.leadership.Ticket? && (Trailing(s.th[t].pc) || Finished(s.round, s.th[t])) ==>
                  exists l :: 0 <= l < cfg.threads && l != t && Leading(s.th[l].pc))
            && (cfg.leadership.Root? && Leading(s.th[t].pc) ==> t == cfg.leadership.thread)
  {
    hide Inv;
    EveryRun(cfg, sched);
    var s := After(cfg, sched);
    ShapeOf(cfg, s);
    Here(cfg, s, t);
    Here(cfg, s, u);
    if cfg.leadership.Ticket? && (Trailing(s.th[t].pc) || Finished(s.round, s.th[t])) {
      Here(cfg, s, Lead(cfg, s));
    }
  }

  /** The ticket is won once a round, by the thread that then leads it. */
  lemma {:induction false} OneWinnerARound(cfg: Config, sched: Schedule)
    requires cfg.Ok() && Legal(cfg, sched) && cfg.leadership.Ticket?
    ensures var s := After(cfg, sched);
            && s.round <= |s.leaders| <= s.round + 1
            && (|s.leaders| == s.round + 1 <==> exists l :: 0 <= l < cfg.threads && Leading(s.th[l].pc))
            && (|s.leaders| == s.round + 1 ==> s.leaders[s.round] < cfg.threads && Leading(s.th[s.leaders[s.round]].pc))
  {
    hide Inv;
    EveryRun(cfg, sched);
    var s := After(cfg, sched);
    ShapeOf(cfg, s);
    if |s.leaders| == s.round + 1 { Here(cfg, s, s.leaders[s.round]); }
    if l :| 0 <= l < cfg.threads && Leading(s.th[l].pc) { Here(cfg, s, l); }
  }

  /** A thread at work on a round: every thread has completed all earlier rounds, and the channel was reset as often. */
  lemma {:induction false} RoundsDoNotOverlap(cfg: Config, sched: Schedule, t: nat, u: nat)
    requires cfg.Ok() && Legal(cfg, sched) && t < cfg.threads && u < cfg.threads
    ensures var s := After(cfg, sched);
            && s.round <= s.th[u].ticket <= s.round + 1
            && (!s.th[t].pc.Out? && !s.th[t].pc.WaitReady? ==> s.th[t].ticket == s.round <= s.th[u].ticket)
  {
    hide Inv;
    EveryRun(cfg, sched);
    Here(cfg, After(cfg, sched), t);
    Here(cfg, After(cfg, sched), u);
  }

  /** Reduce's check that its buffer slot is null never fires. */
  lemma {:induction false} EntryCheckPasses(cfg: Config, sched: Schedule, t: nat)
    requires cfg.Ok() && Legal(cfg, sched) && t < cfg.threads
    ensures var s := After(cfg, sched); s.th[t].pc.Out? ==> s.buf[t] == None
  {
    hide Inv;
    EveryRun(cfg, sched);
    Here(cfg, After(cfg, sched), t);
  }

  /** A source is read only in its own round, while still on offer, and once by each reader. */
  lemma {:induction false} SourcesStayWhileRead(cfg: Config, sched: Schedule, t: nat)
    requires cfg.Ok() && Legal(cfg, sched) && t < cfg.threads
    ensures var s := After(cfg, sched);
            var pc := s.th[t].pc;
            (pc.Fold? || pc.Mark?) ==>
              && pc.j < cfg.threads && pc.j !in s.th[t].done
              && s.buf[pc.j] == Some(s.round) && s.th[pc.j].ticket == s.round
              && (pc.Fold? ==> pc.b == s.round)
  {
    hide Inv;
    EveryRun(cfg, sched);
    var s := After(cfg, sched);
    ShapeOf(cfg, s);
    Here(cfg, s, t);
    if s.th[t].pc.Fold? || s.th[t].pc.Mark? { Here(cfg, s, s.th[t].pc.j); }
  }

  /** A source is cleared only when every computing thread has folded it. */
  lemma {:induction false} ClearedAfterUse(cfg: Config, sched: Schedule, t: nat, u: nat)
    requires cfg.Ok() && Legal(cfg, sched) && t < cfg.threads && u < cfg.computing
    ensures var s := After(cfg, sched);
            (s.th[t].pc.NClear? || s.th[t].pc.LClear?) ==> Finished(s.round, s.th[u]) || t in s.th[u].done
  {
    hide Inv, Marks, AllIn;
    EveryRun(cfg, sched);
    var s := After(cfg, sched);
    ShapeOf(cfg, s);
    Here(cfg, s, t);
    if s.th[t].pc.NClear? {
      ConsumedMeansMarked(cfg, s.round, s.th, t, u);
    } else if s.th[t].pc.LClear? {
      EndedForAll(cfg, s, t, u);
    }
  }

  lemma EndedForAll(cfg: Config, s: State, t: nat, u: nat)
    requires Inv(cfg, s) && t < cfg.threads && u < cfg.computing && s.th[t].pc.LClear?
    ensures Finished(s.round, s.th[u]) || t in s.th[u].done
  {
    hide Marks, ConsumptionOk, AccsOk, PublishedOk, BufsOk;
  }

  /** ResetChannelForReuse's assertion holds: the counter is exact when the leader resets it. */
  lemma {:induction false} ResetSeesEverybody(cfg: Config, sched: Schedule, t: nat)
    requires cfg.Ok() && Legal(cfg, sched) && t < cfg.threads
    ensures var s := After(cfg, sched);
            && (s.th[t].pc.LDone? ==> s.numDone == cfg.threads)
            && s.numDone <= cfg.threads && s.others <= cfg.threads - 1
  {
    hide Inv, PastSet, FinishedSet;
    EveryRun(cfg, sched);
    var s := After(cfg, sched);
    CountsExact(cfg, s, t);
  }

  lemma CountsExact(cfg: Config, s: State, t: nat)
    requires Inv(cfg, s) && t < cfg.threads
    ensures (s.th[t].pc.LDone? ==> s.numDone == cfg.threads) && s.numDone <= cfg.threads && s.others <= cfg.threads - 1
  {
    hide ConsumptionOk, AccsOk, PublishedOk, BufsOk;
    var lead := Lead(cfg, s);
    assert PcOk(cfg, s.round, lead, t, s.th[t]);
    SubsetSize(PastSet(s.round, s.th), Below(cfg.threads));
    if s.th[t].pc.LDone? { assert PastSet(s.round, s.th) == Below(cfg.threads); }
    var l := if lead < 0 then 0 else lead;
    assert PcOk(cfg, s.round, lead, l, s.th[l]);
    assert !Finished(s.round, s.th[l]);
    SubsetSize(FinishedSet(s.round, s.th), Below(cfg.threads) - {l});
  }

  /** Every completed round handed on every source of that round, once in each chunk. */
  lemma {:induction false} ResultsComplete(cfg: Config, sched: Schedule)
    requires cfg.Ok() && Legal(cfg, sched)
    ensures var s := After(cfg, sched);
            && s.round <= |s.published| <= s.round + 1
            && forall r :: 0 <= r < |s.published| ==> Complete(cfg, s.published[r], r)
  {
    EveryRun(cfg, sched);
  }

  // ------------------------------------------------------------------ progress

  /** Waiting for another thread to act. */
  ghost predicate Blocked(cfg: Config, s: State, t: nat)
    requires Shape(cfg, s) && t < cfg.threads
  {
    forall j: nat :: Step(cfg, s, t, j) == s
  }

  /** Once every thread has entered a round, some thread can always move: the round cannot deadlock. */
  lemma {:induction false} NoDeadlock(cfg: Config, sched: Schedule)
    requires cfg.Ok() && Legal(cfg, sched)
    requires var s := After(cfg, sched);
             forall t :: 0 <= t < cfg.threads && s.th[t].pc.Out? ==> s.th[t].ticket == s.round + 1
    ensures exists t :: 0 <= t < cfg.threads && !Blocked(cfg, After(cfg, sched), t)
  {
    hide Inv, Blocked, Below;
    EveryRun(cfg, sched);
    var s := After(cfg, sched);
    ShapeOf(cfg, s);
    if t :| 0 <= t < cfg.threads && !Waits(s.th[t].pc) && !s.th[t].pc.Out? {
      Runs(cfg, s, t);
    } else if t :| 0 <= t < cfg.threads && s.th[t].pc.WaitReady? && s.th[t].ticket == s.round {
      ReadyRuns(cfg, s, t);
    } else if t :| 0 <= t < cfg.threads && s.th[t].pc.Scan? {
      ScanRuns(cfg, s, t);
    } else {
      assert AllPast(s.round, s.th) by {
        forall u | 0 <= u < |s.th| ensures Past(s.round, s.th[u]) { Here(cfg, s, u); }
      }
      LeaderOrFollowerRuns(cfg, s);
    }
  }

  predicate Waits(pc: PC) { pc.WaitReady? || pc.Scan? || pc.LWaitDone? || pc.LWaitOthers? || pc.NWait? }

  lemma Runs(cfg: Config, s: State, t: nat)
    requires Inv(cfg, s) && t < cfg.threads && !Waits(s.th[t].pc)
    ensures !Blocked(cfg, s, t)
  {
    hide Inv;
    ShapeOf(cfg, s);
    Here(cfg, s, t);
    assert Step(cfg, s, t, 0).th[t] != s.th[t];
  }

  lemma ReadyRuns(cfg: Config, s: State, t: nat)
    requires Inv(cfg, s) && t < cfg.threads && s.th[t].pc.WaitReady? && s.th[t].ticket == s.round
    ensures !Blocked(cfg, s, t)
  {
    hide Inv;
    ShapeOf(cfg, s);
    Here(cfg, s, t);
    assert Step(cfg, s, t, 0).th[t] != s.th[t];
  }

  /** Everybody offers a source until this scan has used it. */
  lemma ScanRuns(cfg: Config, s: State, t: nat)
    requires Inv(cfg, s) && t < cfg.threads && s.th[t].pc.Scan?
    requires forall u :: 0 <= u < cfg.threads && s.th[u].pc.Out? ==> s.th[u].ticket == s.round + 1
    ensures !Blocked(cfg, s, t)
  {
    hide Inv, Marks;
    ShapeOf(cfg, s);
    if AllIn(cfg.threads, s.th[t].done) {
      assert Step(cfg, s, t, 0).th[t] != s.th[t];
    } else {
      var j: nat :| j < cfg.threads && j !in s.th[t].done;
      SeenIsCurrent(cfg, s, t, j);
      Here(cfg, s, j);
      assert Step(cfg, s, t, j).th[t] != s.th[t];
    }
  }

  lemma LeaderOrFollowerRuns(cfg: Config, s: State)
    requires Inv(cfg, s) && AllPast(s.round, s.th)
    requires forall t :: 0 <= t < cfg.threads ==> Waits(s.th[t].pc) || s.th[t].pc.Out?
    ensures exists t :: 0 <= t < cfg.threads && !Blocked(cfg, s, t)
  {
    hide Inv, Blocked, Below, Marks;
    ShapeOf(cfg, s);
    if t :| 0 <= t < cfg.threads && s.th[t].pc.NWait? {
      FollowerRuns(cfg, s, t);
    } else {
      LeaderRuns(cfg, s);
    }
  }

  lemma FollowerRuns(cfg: Config, s: State, t: nat)
    requires Inv(cfg, s) && AllPast(s.round, s.th) && t < cfg.threads && s.th[t].pc.NWait?
    ensures !Blocked(cfg, s, t)
  {
    hide Inv, AllIn, Past, PcOk;
    ShapeOf(cfg, s);
    Here(cfg, s, t);
    forall u: nat | u < cfg.computing ensures Marked(cfg.computing, s.round, u, s.th[u], t) {
      Here(cfg, s, u);
      assert Past(s.round, s.th[u]);
      AllFoldedBy(cfg, s.round, Lead(cfg, s), u, s.th[u], t);
    }
    StillHere(cfg, s.round, Lead(cfg, s), t, s.th[t]);
    assert Marks(cfg.computing, s.round, s.th, t) == Below(cfg.computing);
    assert Step(cfg, s, t, 0).th[t] != s.th[t];
  }

  lemma StillHere(cfg: Config, r: nat, lead: int, t: nat, th: Thread)
    requires PcOk(cfg, r, lead, t, th) && th.pc.NWait?
    ensures !Finished(r, th)
  {
  }

  lemma AllFoldedBy(cfg: Config, r: nat, lead: int, u: nat, th: Thread, j: nat)
    requires PcOk(cfg, r, lead, u, th) && Past(r, th) && u < cfg.computing && j < cfg.threads
    ensures Marked(cfg.computing, r, u, th, j)
  {
  }

  lemma LeaderRuns(cfg: Config, s: State)
    requires Inv(cfg, s) && AllPast(s.round, s.th)
    requires forall t :: 0 <= t < cfg.threads ==> (Waits(s.th[t].pc) && !s.th[t].pc.NWait?) || s.th[t].pc.Out?
    ensures exists t :: 0 <= t < cfg.threads && !Blocked(cfg, s, t)
  {
    hide Inv, Blocked, Below, Marks, AllIn, Past, Folded, Exactly;
    ShapeOf(cfg, s);
    var l := Lead(cfg, s);
    forall u: nat | u < cfg.threads
      ensures 0 <= l < cfg.threads && (u != l ==> Finished(s.round, s.th[u]))
      ensures u == l ==> s.th[u].pc.LWaitDone? || s.th[u].pc.LWaitOthers?
    {
      Here(cfg, s, u);
      assert Past(s.round, s.th[u]);
      WaitingRole(cfg, s.round, l, u, s.th[u]);
    }
    assert Past(s.round, s.th[0]);
    Here(cfg, s, 0);
    WaitingRole(cfg, s.round, l, 0, s.th[0]);
    FullCounts(cfg, s, l);
    LeaderEnabled(cfg, s, l);
  }

  lemma WaitingRole(cfg: Config, r: nat, lead: int, u: nat, th: Thread)
    requires PcOk(cfg, r, lead, u, th) && Past(r, th)
    requires (Waits(th.pc) && !th.pc.NWait?) || th.pc.Out?
    ensures 0 <= lead
    ensures if u == lead then th.pc.LWaitDone? || th.pc.LWaitOthers? else Finished(r, th)
  {
  }

  lemma FullCounts(cfg: Config, s: State, l: nat)
    requires Inv(cfg, s) && AllPast(s.round, s.th) && Lead(cfg, s) == l < cfg.threads
    requires s.th[l].pc.LWaitDone? || s.th[l].pc.LWaitOthers?
    requires forall u: nat :: u < cfg.threads && u != l ==> Finished(s.round, s.th[u])
    ensures s.numDone >= cfg.threads && s.others >= cfg.threads - 1
  {
    hide ThreadsOk, AccsOk, ConsumptionOk, BufsOk, PublishedOk;
    assert PastSet(s.round, s.th) == Below(cfg.threads);
    SubsetSize(Below(cfg.threads) - {l}, FinishedSet(s.round, s.th));
  }

  lemma LeaderEnabled(cfg: Config, s: State, l: nat)
    requires Shape(cfg, s) && l < cfg.threads && (s.th[l].pc.LWaitDone? || s.th[l].pc.LWaitOthers?)
    requires s.numDone >= cfg.threads && s.others >= cfg.threads - 1
    ensures !Blocked(cfg, s, l)
  {
    assert Step(cfg, s, l, 0).th[l] != s.th[l];
  }
}
