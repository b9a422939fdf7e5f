/** Every step of the reduce machine keeps the invariant, one lemma per kind of step. */
module ReduceRoundsSteps {
  import opened Options
  import opened Counting
  import opened ReduceRounds
  import opened ReduceRoundsSafety

  lemma InitInv(cfg: Config)
    requires cfg.Ok()
    ensures Inv(cfg, Init(cfg))
  {
    var s := Init(cfg);
    assert forall t :: 0 <= t < |s.th| ==> PcOk(cfg, 0, Lead(cfg, s), t, s.th[t]);
    forall j | 0 <= j < |s.th| ensures ConsumedOk(cfg, 0, s.th, j, s.consumed[j]) {
      assert Marks(cfg.computing, 0, s.th, j) == {};
    }
    assert PastSet(0, s.th) == {} && FinishedSet(0, s.th) == {};
  }

  /** The thread-local facts a step may use. */
  lemma Here(cfg: Config, s: State, t: nat)
    requires Inv(cfg, s) && t < cfg.threads
    ensures var lead := Lead(cfg, s);
            && PcOk(cfg, s.round, lead, t, s.th[t]) && BufOk(s.th[t], s.buf[t])
            && AccOk(cfg, s.round, Cleared(LeadPc(s.th, lead)), t, s.th[t], s.acc[t])
            && ConsumedOk(cfg, s.round, s.th, t, s.consumed[t])
  {
    hide PcOk, BufOk, AccOk, ConsumedOk, CountsOk, PublishedOk;
  }

  /** Only the program counter of thread t moves, and it does not lead. */
  lemma MoveKeeps(cfg: Config, s: State, t: nat, pc: PC, a: seq<Src>, b: Option<nat>)
    requires Inv(cfg, s) && t < cfg.threads
    requires Lead(cfg, s) == t ==> !Leading(pc) && !Leading(s.th[t].pc)
    requires var me := s.th[t];
             var th := me.(pc := pc);
             && Past(s.round, th) == Past(s.round, me) && Reset(s.round, th) == Reset(s.round, me)
             && (Drained(s.round, th) ==> Drained(s.round, me) || |Marks(cfg.computing, s.round, s.th, t)| >= cfg.computing)
             && PcOk(cfg, s.round, Lead(cfg, s), t, th) && BufOk(th, b)
             && AccOk(cfg, s.round, Cleared(LeadPc(s.th, Lead(cfg, s))), t, th, a)
    ensures Inv(cfg, At(s.(acc := s.acc[t := a], buf := s.buf[t := b]), t, pc))
  {
    hide PcOk, BufOk, AccOk, ConsumptionOk, CountsOk, AllPast, OthersFinished, Past, Reset, Drained, ThreadsOk, AccsOk, BufsOk, Complete;
    LocalKeeps(cfg, s, t, s.th[t].(pc := pc), a, b, s.published);
  }

  lemma OutKeeps(cfg: Config, s: State, t: nat, j: nat)
    requires Inv(cfg, s) && t < cfg.threads && s.th[t].pc.Out?
    ensures Inv(cfg, Step(cfg, s, t, j))
  {
    hide Inv, ClockOk, ThreadsOk, BufsOk, AccsOk, ConsumptionOk, CountsOk, PublishedOk, Exactly, Lead, Below;
    Here(cfg, s, t);
    assert Shape(cfg, s) by { ShapeOf(cfg, s); }
    assert s.acc[t := s.acc[t]] == s.acc;
    MoveKeeps(cfg, s, t, WaitReady, s.acc[t], Some(s.th[t].ticket));
  }

  lemma ShapeOf(cfg: Config, s: State)
    requires Inv(cfg, s)
    ensures Shape(cfg, s) && ClockOk(cfg, s)
  {
  }

  lemma ReadyKeeps(cfg: Config, s: State, t: nat, j: nat)
    requires Inv(cfg, s) && t < cfg.threads && s.th[t].pc.WaitReady?
    ensures Inv(cfg, Step(cfg, s, t, j))
  {
    hide Inv, ThreadsOk, BufsOk, AccsOk, ConsumptionOk, CountsOk, PublishedOk, Exactly, Lead, Below, AllIn;
    Here(cfg, s, t);
    ShapeOf(cfg, s);
    if s.ready == s.th[t].sense {
      assert s.acc[t := s.acc[t]] == s.acc;
      assert s.buf[t := s.buf[t]] == s.buf;
      MoveKeeps(cfg, s, t, if t < cfg.computing then CopyOwn else ChunkDone, s.acc[t], s.buf[t]);
    }
  }

  /** While some thread has not finished its chunk, the leader has not seen all done. */
  lemma Early(cfg: Config, s: State, t: nat)
    requires Inv(cfg, s) && t < cfg.threads && !Past(s.round, s.th[t])
    ensures !SawDone(LeadPc(s.th, Lead(cfg, s)))
  {
    hide PcOk, BufOk, AccOk, ConsumptionOk, PublishedOk, Past;
  }

  /** While some other thread is in its round, the leader has not seen the others leave. */
  lemma Present(cfg: Config, s: State, t: nat)
    requires Inv(cfg, s) && t < cfg.threads && !Finished(s.round, s.th[t]) && Lead(cfg, s) != t
    ensures !SawOthers(LeadPc(s.th, Lead(cfg, s)))
  {
    hide PcOk, BufOk, AccOk, ConsumptionOk, PublishedOk, Past, AllPast;
  }

  lemma FoldOne(a: seq<Src>, who: set<nat>, r: nat, j: nat)
    requires Exactly(a, who, r) && j !in who
    ensures Exactly(a + [Src(j, r)], who + {j}, r)
  {
    var a' := a + [Src(j, r)];
    assert a'[|a|] == Src(j, r);
    forall k | k in who + {j} ensures Src(k, r) in a' {
      if k != j { assert Src(k, r) in a; }
    }
  }

  lemma CopyOwnKeeps(cfg: Config, s: State, t: nat, j: nat)
    requires Inv(cfg, s) && t < cfg.threads && s.th[t].pc.CopyOwn?
    ensures Inv(cfg, Step(cfg, s, t, j))
  {
    hide Inv, ClockOk, ThreadsOk, BufsOk, AccsOk, ConsumptionOk, CountsOk, PublishedOk, Lead, Below;
    Here(cfg, s, t);
    ShapeOf(cfg, s);
    Early(cfg, s, t);
    assert s.buf[t := s.buf[t]] == s.buf;
    MoveKeeps(cfg, s, t, MarkOwn, [Src(t, s.th[t].ticket)], s.buf[t]);
  }

  /** A source seen by a scan that still misses it belongs to this round. */
  lemma SeenIsCurrent(cfg: Config, s: State, t: nat, j: nat)
    requires Inv(cfg, s) && t < cfg.threads && j < cfg.threads
    requires Scanning(s.th[t].pc) && j !in s.th[t].done
    ensures !Reset(s.round, s.th[j]) && !s.th[j].pc.NConsumed?
    ensures s.buf[j].Some? ==> s.buf[j] == Some(s.round) && !s.th[j].pc.Out?
    ensures |Marks(cfg.computing, s.round, s.th, j)| < cfg.computing
  {
    hide Inv, AllIn, Marks, Folded, Exactly;
    Here(cfg, s, j);
    Here(cfg, s, t);
    Early(cfg, s, t);
    StillWaiting(cfg, s, t, j);
    ShapeOf(cfg, s);
  }

  /** The count a channel would reach is short of its target while a scan misses it. */
  lemma StillWaiting(cfg: Config, s: State, t: nat, j: nat)
    requires Inv(cfg, s) && t < cfg.threads && j < cfg.threads
    requires PcOk(cfg, s.round, Lead(cfg, s), t, s.th[t])
    requires Scanning(s.th[t].pc) && j !in s.th[t].done
    ensures |Marks(cfg.computing, s.round, s.th, j)| < cfg.computing
  {
    hide Inv, AllIn;
    ShapeOf(cfg, s);
    if |Marks(cfg.computing, s.round, s.th, j)| >= cfg.computing {
      ConsumedMeansMarked(cfg, s.round, s.th, j, t);
    }
  }

  lemma MarkKeeps(cfg: Config, s: State, t: nat, j: nat)
    requires Inv(cfg, s) && t < cfg.threads && s.th[t].pc.Mark?
    ensures Inv(cfg, Step(cfg, s, t, j))
  {
    hide Inv, ClockOk, ThreadsOk, BufsOk, AccsOk, ConsumptionOk, CountsOk, PublishedOk, Lead, Below, Marks, Exactly;
    Here(cfg, s, t);
    ShapeOf(cfg, s);
    Early(cfg, s, t);
    var i := s.th[t].pc.j;
    assert Scanning(s.th[t].pc);
    SeenIsCurrent(cfg, s, t, i);
    CountKeeps(cfg, s, t, s.th[t].(pc := Scan, done := s.th[t].done + {i}), i);
  }

  lemma MarkOwnKeeps(cfg: Config, s: State, t: nat, j: nat)
    requires Inv(cfg, s) && t < cfg.threads && s.th[t].pc.MarkOwn?
    ensures Inv(cfg, Step(cfg, s, t, j))
  {
    hide Inv, ClockOk, ThreadsOk, BufsOk, AccsOk, ConsumptionOk, CountsOk, PublishedOk, Lead, Below, Marks, Exactly;
    Here(cfg, s, t);
    ShapeOf(cfg, s);
    Early(cfg, s, t);
    assert s.th[t].done + {t} == {t};
    CountKeeps(cfg, s, t, s.th[t].(pc := Scan, done := {t}), t);
  }

  /** Thread t counts channel i as used. */
  lemma CountKeeps(cfg: Config, s: State, t: nat, th: Thread, i: nat)
    requires Inv(cfg, s) && t < cfg.threads && i < cfg.threads && t < cfg.computing
    requires th.pc.Scan? && (s.th[t].pc.Mark? || s.th[t].pc.MarkOwn?) && !Finished(s.round, th)
    requires i !in s.th[t].done && th.done == s.th[t].done + {i} && th.ticket == s.th[t].ticket
    requires !Reset(s.round, s.th[i])
    requires PcOk(cfg, s.round, Lead(cfg, s), t, th)
    requires Folded(cfg.threads, s.round, t, th) == Folded(cfg.threads, s.round, t, s.th[t])
    ensures Inv(cfg, s.(consumed := s.consumed[i := s.consumed[i] + 1], th := s.th[t := th]))
  {
    hide Exactly, Marks, ConsumptionOk, CountsOk, AllPast, OthersFinished, Complete, Folded, AccsOk, AllIn;
    var lead := Lead(cfg, s);
    Here(cfg, s, t);
    Early(cfg, s, t);
    FrameThreads(cfg, s.round, lead, s.th, t, th);
    var cleared := Cleared(LeadPc(s.th, lead));
    FrameAccs(cfg, s.round, cleared, s.th, s.acc, t, th, s.acc[t]);
    assert s.acc[t := s.acc[t]] == s.acc;
    MarkConsumption(cfg, s.round, s.th, s.consumed, t, th, i);
    CountsKeep(cfg, s.round, lead, s.th, s.numDone, s.others, t, th);
  }

  lemma ScanKeeps(cfg: Config, s: State, t: nat, j: nat)
    requires Inv(cfg, s) && t < cfg.threads && s.th[t].pc.Scan?
    ensures Inv(cfg, Step(cfg, s, t, j))
  {
    hide Inv, ClockOk, ThreadsOk, BufsOk, AccsOk, ConsumptionOk, CountsOk, PublishedOk, Lead, Below, Marks, Exactly, AllIn;
    Here(cfg, s, t);
    ShapeOf(cfg, s);
    Early(cfg, s, t);
    assert s.buf[t := s.buf[t]] == s.buf;
    assert s.acc[t := s.acc[t]] == s.acc;
    if AllIn(cfg.threads, s.th[t].done) {
      MoveKeeps(cfg, s, t, ChunkDone, s.acc[t], s.buf[t]);
    } else if j < cfg.threads && j !in s.th[t].done && s.buf[j].Some? {
      SeenIsCurrent(cfg, s, t, j);
      MoveKeeps(cfg, s, t, Fold(j, s.buf[j].value), s.acc[t], s.buf[t]);
    }
  }

  lemma FoldKeeps(cfg: Config, s: State, t: nat, j: nat)
    requires Inv(cfg, s) && t < cfg.threads && s.th[t].pc.Fold?
    ensures Inv(cfg, Step(cfg, s, t, j))
  {
    hide Inv, ClockOk, ThreadsOk, BufsOk, AccsOk, ConsumptionOk, CountsOk, PublishedOk, Lead, Below, Marks, Exactly, AllIn;
    Here(cfg, s, t);
    ShapeOf(cfg, s);
    Early(cfg, s, t);
    assert s.buf[t := s.buf[t]] == s.buf;
    var i := s.th[t].pc.j;
    FoldOne(s.acc[t], s.th[t].done, s.round, i);
    MoveKeeps(cfg, s, t, Mark(i), s.acc[t] + [Src(i, s.round)], s.buf[t]);
  }

  lemma ElectKeeps(cfg: Config, s: State, t: nat, j: nat)
    requires Inv(cfg, s) && t < cfg.threads && s.th[t].pc.Elect? && cfg.leadership.Ticket?
    ensures Inv(cfg, Step(cfg, s, t, j))
  {
    hide Inv, ThreadsOk, BufsOk, AccsOk, ConsumptionOk, CountsOk, PublishedOk, Below, Marks, Exactly, AllIn;
    Here(cfg, s, t);
    ShapeOf(cfg, s);
    assert s.buf[t := s.buf[t]] == s.buf;
    assert s.acc[t := s.acc[t]] == s.acc;
    MoveKeeps(cfg, s, t, if s.th[t].ticket == s.ticket then TryCas else NWait, s.acc[t], s.buf[t]);
  }

  lemma LoseKeeps(cfg: Config, s: State, t: nat, j: nat)
    requires Inv(cfg, s) && t < cfg.threads && s.th[t].pc.TryCas? && s.ticket != s.th[t].ticket
    ensures Inv(cfg, Step(cfg, s, t, j))
  {
    hide Inv, ThreadsOk, BufsOk, AccsOk, ConsumptionOk, CountsOk, PublishedOk, Below, Marks, Exactly, AllIn;
    Here(cfg, s, t);
    ShapeOf(cfg, s);
    assert s.buf[t := s.buf[t]] == s.buf;
    assert s.acc[t := s.acc[t]] == s.acc;
    MoveKeeps(cfg, s, t, NWait, s.acc[t], s.buf[t]);
  }

  lemma RootKeeps(cfg: Config, s: State, t: nat, j: nat)
    requires Inv(cfg, s) && t < cfg.threads && s.th[t].pc.Elect? && cfg.leadership.Root?
    ensures Inv(cfg, Step(cfg, s, t, j))
  {
    hide ThreadsOk, BufsOk, AccsOk, ConsumptionOk, CountsOk, Complete, Below, Marks, Exactly, AllIn;
    Here(cfg, s, t);
    ShapeOf(cfg, s);
    assert s.buf[t := s.buf[t]] == s.buf;
    assert s.acc[t := s.acc[t]] == s.acc;
    if t == cfg.leadership.thread {
      LeadMoves(cfg, s, t, LWaitDone, s.acc[t], s.buf[t], s.published);
    } else {
      MoveKeeps(cfg, s, t, NWait, s.acc[t], s.buf[t]);
    }
  }

  /** The leader's own moves that change no counter. */
  lemma LeadMoves(cfg: Config, s: State, t: nat, pc: PC, a: seq<Src>, b: Option<nat>, p: seq<seq<seq<Src>>>)
    requires Inv(cfg, s) && t < cfg.threads && Lead(cfg, s) == t && Leading(pc)
    requires var me := s.th[t];
             var th := me.(pc := pc);
             && (Leading(me.pc) || me.pc.Elect?) && Past(s.round, th) == Past(s.round, me) && Reset(s.round, th) == Reset(s.round, me)
             && PcOk(cfg, s.round, t, t, th) && BufOk(th, b)
             && Cleared(pc) == Cleared(me.pc) && !pc.LOthers? && !pc.LFlip? && !me.pc.LOthers? && !me.pc.LFlip?
             && (SawDone(pc) ==> SawDone(me.pc) || AllPast(s.round, s.th))
             && (SawOthers(pc) ==> SawOthers(me.pc) || OthersFinished(s.round, t, s.th))
             && AccOk(cfg, s.round, Cleared(pc), t, th, a)
             && PublishedOk(cfg, s.round, pc, p)
    ensures Inv(cfg, At(s.(acc := s.acc[t := a], buf := s.buf[t := b], published := p), t, pc))
  {
    hide PcOk, BufOk, AccOk, ConsumptionOk, CountsOk, AllPast, OthersFinished, Past, Reset, ThreadsOk, AccsOk, BufsOk, PublishedOk;
    LocalKeeps(cfg, s, t, s.th[t].(pc := pc), a, b, p);
  }

  lemma WaitDoneKeeps(cfg: Config, s: State, t: nat, j: nat)
    requires Inv(cfg, s) && t < cfg.threads && s.th[t].pc.LWaitDone?
    ensures Inv(cfg, Step(cfg, s, t, j))
  {
    hide ThreadsOk, BufsOk, AccsOk, ConsumptionOk, Complete, Below, Marks, Exactly, AllIn, AllPast, PastSet, FinishedSet;
    Here(cfg, s, t);
    if s.numDone >= cfg.threads {
      DoneMeansPast(s.round, s.th);
      assert s.buf[t := s.buf[t]] == s.buf;
      assert s.acc[t := s.acc[t]] == s.acc;
      LeadMoves(cfg, s, t, LPublish, s.acc[t], s.buf[t], s.published);
    }
  }

  /** When all chunks are done, each is the fold of all sources. */
  lemma AllFolded(cfg: Config, s: State)
    requires Inv(cfg, s) && AllPast(s.round, s.th) && !Cleared(LeadPc(s.th, Lead(cfg, s)))
    ensures Complete(cfg, s.acc, s.round)
  {
    hide Inv, Exactly, Below, PcOk, BufOk, ConsumedOk, Lead, Folded, Past;
    ShapeOf(cfg, s);
    forall t | 0 <= t < |s.acc| && t < cfg.computing ensures Exactly(s.acc[t], Below(cfg.threads), s.round) {
      Here(cfg, s, t);
      FoldedAll(cfg, s.round, Lead(cfg, s), t, s.th[t]);
    }
  }

  lemma FoldedAll(cfg: Config, r: nat, lead: int, t: nat, th: Thread)
    requires PcOk(cfg, r, lead, t, th) && Past(r, th) && t < cfg.computing
    ensures Folded(cfg.threads, r, t, th) == Below(cfg.threads)
  {
  }

  lemma PublishKeeps(cfg: Config, s: State, t: nat, j: nat)
    requires Inv(cfg, s) && t < cfg.threads && s.th[t].pc.LPublish?
    ensures Inv(cfg, Step(cfg, s, t, j))
  {
    hide ThreadsOk, BufsOk, AccsOk, ConsumptionOk, Complete, Below, Marks, Exactly, AllIn, AllPast, PastSet, FinishedSet;
    Here(cfg, s, t);
    AllFolded(cfg, s);
    assert s.buf[t := s.buf[t]] == s.buf;
    assert s.acc[t := s.acc[t]] == s.acc;
    LeadMoves(cfg, s, t, LWaitOthers, s.acc[t], s.buf[t], s.published + [s.acc]);
  }

  lemma WaitOthersKeeps(cfg: Config, s: State, t: nat, j: nat)
    requires Inv(cfg, s) && t < cfg.threads && s.th[t].pc.LWaitOthers?
    ensures Inv(cfg, Step(cfg, s, t, j))
  {
    hide ThreadsOk, BufsOk, AccsOk, ConsumptionOk, Complete, Below, Marks, Exactly, AllIn, AllPast, PastSet, FinishedSet;
    Here(cfg, s, t);
    if s.others >= cfg.threads - 1 {
      OthersMeansFinished(s.round, t, s.th);
      assert s.buf[t := s.buf[t]] == s.buf;
      assert s.acc[t := s.acc[t]] == s.acc;
      LeadMoves(cfg, s, t, LConsumed, s.acc[t], s.buf[t], s.published);
    }
  }

  lemma ClearKeeps(cfg: Config, s: State, t: nat, j: nat)
    requires Inv(cfg, s) && t < cfg.threads && s.th[t].pc.LClear?
    ensures Inv(cfg, Step(cfg, s, t, j))
  {
    hide ThreadsOk, BufsOk, AccsOk, ConsumptionOk, Complete, Below, Marks, Exactly, AllIn, AllPast, PastSet, FinishedSet;
    Here(cfg, s, t);
    assert s.acc[t := s.acc[t]] == s.acc;
    LeadMoves(cfg, s, t, LInit, s.acc[t], None, s.published);
  }

  lemma WaitKeeps(cfg: Config, s: State, t: nat, j: nat)
    requires Inv(cfg, s) && t < cfg.threads && (s.th[t].pc.NWait? || s.th[t].pc.NClear?)
    ensures Inv(cfg, Step(cfg, s, t, j))
  {
    hide Inv, ThreadsOk, BufsOk, AccsOk, ConsumptionOk, CountsOk, PublishedOk, Below, Marks, Exactly, AllIn, Lead;
    Here(cfg, s, t);
    ShapeOf(cfg, s);
    assert s.buf[t := s.buf[t]] == s.buf;
    assert s.acc[t := s.acc[t]] == s.acc;
    if s.th[t].pc.NClear? {
      MoveKeeps(cfg, s, t, NConsumed, s.acc[t], None);
    } else if s.consumed[t] >= cfg.computing {
      MoveKeeps(cfg, s, t, NClear, s.acc[t], s.buf[t]);
    }
  }

  /** Thread t resets its consumption count. */
  lemma ZeroKeeps(cfg: Config, s: State, t: nat, j: nat)
    requires Inv(cfg, s) && t < cfg.threads && (s.th[t].pc.LConsumed? || s.th[t].pc.NConsumed?)
    ensures Inv(cfg, Step(cfg, s, t, j))
  {
    hide Marks, Exactly, AllIn, ConsumptionOk, CountsOk, AllPast, OthersFinished, Complete, Below, AccsOk;
    var lead := Lead(cfg, s);
    Here(cfg, s, t);
    var th := s.th[t].(pc := if s.th[t].pc.LConsumed? then LClear else NInc);
    FrameThreads(cfg, s.round, lead, s.th, t, th);
    FrameAccs(cfg, s.round, Cleared(LeadPc(s.th, lead)), s.th, s.acc, t, th, s.acc[t]);
    assert s.acc[t := s.acc[t]] == s.acc;
    ResetConsumption(cfg, s.round, s.th, s.consumed, t, th, true);
    CountsKeep(cfg, s.round, lead, s.th, s.numDone, s.others, t, th);
  }

  lemma ChunkDoneKeeps(cfg: Config, s: State, t: nat, j: nat)
    requires Inv(cfg, s) && t < cfg.threads && s.th[t].pc.ChunkDone?
    ensures Inv(cfg, Step(cfg, s, t, j))
  {
    hide Marks, Exactly, AllIn, ConsumptionOk, CountsOk, AllPast, OthersFinished, Complete, Below, AccsOk, PastSet;
    var lead := Lead(cfg, s);
    Here(cfg, s, t);
    Early(cfg, s, t);
    var th := s.th[t].(pc := Elect);
    FrameThreads(cfg, s.round, lead, s.th, t, th);
    FrameAccs(cfg, s.round, Cleared(LeadPc(s.th, lead)), s.th, s.acc, t, th, s.acc[t]);
    assert s.acc[t := s.acc[t]] == s.acc;
    FrameConsumption(cfg, s.round, s.th, s.consumed, t, th);
    MorePast(cfg, s, t, th);
  }

  lemma MorePast(cfg: Config, s: State, t: nat, th: Thread)
    requires Inv(cfg, s) && t < cfg.threads && s.th[t].pc.ChunkDone? && th == s.th[t].(pc := Elect)
    requires !SawDone(LeadPc(s.th, Lead(cfg, s))) && !Finished(s.round, s.th[t])
    ensures CountsOk(s.round, Lead(cfg, s), s.th[t := th], s.numDone + 1, s.others)
  {
    hide ThreadsOk, BufsOk, AccsOk, ConsumptionOk, PublishedOk, Lead;
    assert PastSet(s.round, s.th[t := th]) == PastSet(s.round, s.th) + {t};
    SameFinished(s.round, s.th, t, th);
  }

  lemma WinKeeps(cfg: Config, s: State, t: nat, j: nat)
    requires Inv(cfg, s) && t < cfg.threads && s.th[t].pc.TryCas? && s.ticket == s.th[t].ticket
    ensures Inv(cfg, Step(cfg, s, t, j))
  {
    hide Marks, Exactly, AllIn, ConsumptionOk, CountsOk, AllPast, OthersFinished, Complete, Below, AccsOk;
    var s' := Step(cfg, s, t, j);
    Here(cfg, s, t);
    var th := s.th[t].(pc := LWaitDone);
    assert Lead(cfg, s) == -1 && Lead(cfg, s') == t;
    NewLead(cfg, s.round, s.th, t, th);
    FrameAccs(cfg, s.round, false, s.th, s.acc, t, th, s.acc[t]);
    assert s.acc[t := s.acc[t]] == s.acc;
    FrameConsumption(cfg, s.round, s.th, s.consumed, t, th);
    NewLeadCounts(cfg, s.round, s.th, s.numDone, s.others, t, th);
  }

  lemma NewLead(cfg: Config, r: nat, ths: seq<Thread>, t: nat, th: Thread)
    requires ThreadsOk(cfg, r, -1, ths) && t < |ths| && ths[t].pc.TryCas? && th == ths[t].(pc := LWaitDone)
    ensures ThreadsOk(cfg, r, t, ths[t := th])
  {
    var ths' := ths[t := th];
    forall u | 0 <= u < |ths'| ensures PcOk(cfg, r, t, u, ths'[u]) {
      assert PcOk(cfg, r, -1, u, ths[u]);
    }
  }

  lemma NewLeadCounts(cfg: Config, r: nat, ths: seq<Thread>, numDone: nat, others: nat, t: nat, th: Thread)
    requires CountsOk(r, -1, ths, numDone, others)
    requires t < |ths| && ths[t].pc.TryCas? && th == ths[t].(pc := LWaitDone)
    ensures CountsOk(r, t, ths[t := th], numDone, others)
  {
    SamePast(r, ths, t, th);
    SameFinished(r, ths, t, th);
  }

  /** A non-leader leaves the round. */
  lemma LeaveKeeps(cfg: Config, s: State, t: nat, j: nat)
    requires Inv(cfg, s) && t < cfg.threads && s.th[t].pc.NInc?
    ensures Inv(cfg, Step(cfg, s, t, j))
  {
    hide Marks, Exactly, AllIn, ConsumptionOk, CountsOk, AllPast, OthersFinished, Complete, Below, AccsOk, PastSet;
    var lead := Lead(cfg, s);
    Here(cfg, s, t);
    var me := s.th[t];
    var th := Thread(Out, {}, me.ticket + 1, !me.sense);
    FrameThreads(cfg, s.round, lead, s.th, t, th);
    AllOrNone(cfg, s.round, lead, t, me);
    FrameAccs(cfg, s.round, Cleared(LeadPc(s.th, lead)), s.th, s.acc, t, th, s.acc[t]);
    assert s.acc[t := s.acc[t]] == s.acc;
    LeaveMarks(cfg, s.round, lead, t, me, th);
    ResetConsumption(cfg, s.round, s.th, s.consumed, t, th, false);
    Present(cfg, s, t);
    MoreFinished(s.round, lead, s.th, s.numDone, s.others, t, th);
  }

  lemma AllOrNone(cfg: Config, r: nat, lead: int, t: nat, th: Thread)
    requires PcOk(cfg, r, lead, t, th) && th.pc.NInc?
    ensures t < cfg.computing ==> th.done == Below(cfg.threads)
  {
  }

  lemma LeaveMarks(cfg: Config, r: nat, lead: int, t: nat, me: Thread, th: Thread)
    requires PcOk(cfg, r, lead, t, me) && me.pc.NInc? && Finished(r, th)
    ensures forall j :: 0 <= j < cfg.threads ==> Marked(cfg.computing, r, t, th, j) == Marked(cfg.computing, r, t, me, j)
  {
  }

  lemma MoreFinished(r: nat, lead: int, ths: seq<Thread>, numDone: nat, others: nat, t: nat, th: Thread)
    requires CountsOk(r, lead, ths, numDone, others) && t < |ths| && lead != t
    requires ths[t].pc.NInc? && !Finished(r, ths[t]) && Finished(r, th) && !SawOthers(LeadPc(ths, lead))
    ensures CountsOk(r, lead, ths[t := th], numDone, others + 1)
  {
    SamePast(r, ths, t, th);
    assert FinishedSet(r, ths[t := th]) == FinishedSet(r, ths) + {t};
  }

  // ------------------------------------------------------------------ the leader resets the channel

  lemma InitBufferKeeps(cfg: Config, s: State, t: nat, j: nat)
    requires Inv(cfg, s) && t < cfg.threads && s.th[t].pc.LInit?
    ensures Inv(cfg, Step(cfg, s, t, j))
  {
    hide Marks, Exactly, AllIn, ConsumptionOk, CountsOk, AllPast, OthersFinished, Complete, Below;
    Here(cfg, s, t);
    var th := s.th[t].(pc := LDone);
    FrameThreads(cfg, s.round, t, s.th, t, th);
    FrameConsumption(cfg, s.round, s.th, s.consumed, t, th);
    CountsKeep(cfg, s.round, t, s.th, s.numDone, s.others, t, th);
  }

  lemma ZeroCounterKeeps(cfg: Config, s: State, t: nat, j: nat)
    requires Inv(cfg, s) && t < cfg.threads && (s.th[t].pc.LDone? || s.th[t].pc.LOthers?)
    ensures Inv(cfg, Step(cfg, s, t, j))
  {
    hide Marks, Exactly, AllIn, ConsumptionOk, Complete, Below, PastSet, FinishedSet;
    Here(cfg, s, t);
    var th := s.th[t].(pc := if s.th[t].pc.LDone? then LOthers else LFlip);
    FrameThreads(cfg, s.round, t, s.th, t, th);
    FrameConsumption(cfg, s.round, s.th, s.consumed, t, th);
    SamePast(s.round, s.th, t, th);
    SameFinished(s.round, s.th, t, th);
  }

  /** The next round opens: everybody else is waiting for it or outside. */
  lemma FlipKeeps(cfg: Config, s: State, t: nat, j: nat)
    requires Inv(cfg, s) && t < cfg.threads && s.th[t].pc.LFlip?
    ensures Inv(cfg, Step(cfg, s, t, j))
  {
    hide Exactly, AllIn, Complete;
    var s' := Step(cfg, s, t, j);
    FlipThreads(cfg, s, t, j);
    assert PastSet(s'.round, s'.th) == {};
    assert FinishedSet(s'.round, s'.th) == {};
    FlipRest(cfg, s, t, j);
  }

  lemma FlipThreads(cfg: Config, s: State, t: nat, j: nat)
    requires Inv(cfg, s) && t < cfg.threads && s.th[t].pc.LFlip?
    ensures var s' := Step(cfg, s, t, j);
            && ThreadsOk(cfg, s'.round, Lead(cfg, s'), s'.th)
            && forall u :: 0 <= u < |s'.th| ==>
                 && s'.th[u].ticket == s'.round && s'.th[u].done == {}
                 && (s'.th[u].pc.Out? || s'.th[u].pc.WaitReady?)
  {
    hide Exactly, AllIn, Complete, Below, Marks, ConsumptionOk, AccsOk, PublishedOk, PastSet, FinishedSet;
    var s' := Step(cfg, s, t, j);
    Here(cfg, s, t);
    forall u | 0 <= u < |s'.th|
      ensures PcOk(cfg, s'.round, Lead(cfg, s'), u, s'.th[u])
      ensures s'.th[u].ticket == s'.round && s'.th[u].done == {} && (s'.th[u].pc.Out? || s'.th[u].pc.WaitReady?)
    {
      if u != t { assert Finished(s.round, s.th[u]); }
    }
  }

  lemma FlipRest(cfg: Config, s: State, t: nat, j: nat)
    requires Inv(cfg, s) && t < cfg.threads && s.th[t].pc.LFlip?
    requires var s' := Step(cfg, s, t, j);
             forall u :: 0 <= u < |s'.th| ==> s'.th[u].ticket == s'.round && s'.th[u].done == {} && (s'.th[u].pc.Out? || s'.th[u].pc.WaitReady?)
    ensures var s' := Step(cfg, s, t, j);
            && ConsumptionOk(cfg, s'.round, s'.th, s'.consumed)
            && AccsOk(cfg, s'.round, false, s'.th, s'.acc)
            && BufsOk(s'.th, s'.buf)
  {
    var s' := Step(cfg, s, t, j);
    forall u | 0 <= u < |s'.th|
      ensures ConsumedOk(cfg, s'.round, s'.th, u, s'.consumed[u]) && AccOk(cfg, s'.round, false, u, s'.th[u], s'.acc[u])
      ensures BufOk(s'.th[u], s'.buf[u])
    {
      hide Inv;
      ShapeOf(cfg, s);
      Here(cfg, s, u);
      Here(cfg, s, t);
      assert Marks(cfg.computing, s'.round, s'.th, u) == {};
    }
  }

  lemma StepInv(cfg: Config, s: State, t: nat, j: nat)
    requires Inv(cfg, s) && t < cfg.threads
    ensures Inv(cfg, Step(cfg, s, t, j))
  {
    hide Inv, Step;
    ShapeOf(cfg, s);
    match s.th[t].pc
    case Out => OutKeeps(cfg, s, t, j);
    case WaitReady => ReadyKeeps(cfg, s, t, j);
    case CopyOwn => CopyOwnKeeps(cfg, s, t, j);
    case MarkOwn => MarkOwnKeeps(cfg, s, t, j);
    case Scan => ScanKeeps(cfg, s, t, j);
    case Fold(_, _) => FoldKeeps(cfg, s, t, j);
    case Mark(_) => MarkKeeps(cfg, s, t, j);
    case ChunkDone => ChunkDoneKeeps(cfg, s, t, j);
    case Elect => if cfg.leadership.Ticket? { ElectKeeps(cfg, s, t, j); } else { RootKeeps(cfg, s, t, j); }
    case TryCas => if s.ticket == s.th[t].ticket { WinKeeps(cfg, s, t, j); } else { LoseKeeps(cfg, s, t, j); }
    case LWaitDone => WaitDoneKeeps(cfg, s, t, j);
    case LPublish => PublishKeeps(cfg, s, t, j);
    case LWaitOthers => WaitOthersKeeps(cfg, s, t, j);
    case LConsumed => ZeroKeeps(cfg, s, t, j);
    case LClear => ClearKeeps(cfg, s, t, j);
    case LInit => InitBufferKeeps(cfg, s, t, j);
    case LDone => ZeroCounterKeeps(cfg, s, t, j);
    case LOthers => ZeroCounterKeeps(cfg, s, t, j);
    case LFlip => FlipKeeps(cfg, s, t, j);
    case NWait => WaitKeeps(cfg, s, t, j);
    case NClear => WaitKeeps(cfg, s, t, j);
    case NConsumed => ZeroKeeps(cfg, s, t, j);
    case NInc => LeaveKeeps(cfg, s, t, j);
  }
}
