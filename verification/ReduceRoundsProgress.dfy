/** The reduce never gets stuck: from every reachable state every thread can finish any number of rounds. */
module ReduceRoundsProgress {
  import opened Options
  import opened Counting
  import opened ReduceRounds
  import opened ReduceRoundsSafety
  import opened ReduceRoundsSteps
  import opened ReduceRoundsRuns

  /** A thread's place in its round; each source it folds takes it three places further. */
  function Rank(n: nat, th: Thread): nat {
    match th.pc
    case Out => 0
    case WaitReady => 1
    case CopyOwn => 2
    case MarkOwn => 3
    case Scan => 4 + 3 * |th.done|
    case Fold(_, _) => 5 + 3 * |th.done|
    case Mark(_) => 6 + 3 * |th.done|
    case ChunkDone => 3 * n + 8
    case Elect => 3 * n + 9
    case TryCas => 3 * n + 10
    case LWaitDone => 3 * n + 11
    case LPublish => 3 * n + 12
    case LWaitOthers => 3 * n + 13
    case LConsumed => 3 * n + 14
    case LClear => 3 * n + 15
    case LInit => 3 * n + 16
    case LDone => 3 * n + 17
    case LOthers => 3 * n + 18
    case LFlip => 3 * n + 19
    case NWait => 3 * n + 11
    case NClear => 3 * n + 12
    case NConsumed => 3 * n + 13
    case NInc => 3 * n + 14
  }

  /** Its place in all its rounds. */
  function Position(n: nat, th: Thread): nat { th.ticket * (3 * n + 20) + Rank(n, th) }

  /** What is left of k rounds for each thread; until all have finished them nobody is two ahead. */
  ghost function ToGo(n: nat, s: State, k: nat): (r: seq<nat>)
    ensures |r| == |s.th|
  {
    var end := (k + 1) * (3 * n + 20);
    seq(|s.th|, t requires 0 <= t < |s.th| =>
      if Position(n, s.th[t]) <= end then end - Position(n, s.th[t]) else 0)
  }

  /** Either a later place in the same round, or the first of the next one. */
  predicate Later(n: nat, th: Thread, th': Thread) {
    || (th'.ticket == th.ticket && Rank(n, th') > Rank(n, th))
    || (th'.ticket == th.ticket + 1 && th'.pc.Out?)
  }

  lemma OthersStay(cfg: Config, s: State, t: nat, j: nat, u: nat)
    requires Shape(cfg, s) && t < cfg.threads && u < cfg.threads && u != t
    ensures Step(cfg, s, t, j).th[u] == s.th[u]
  {
    hide WorkStep, LeaderStep;
    WorkLeaves(cfg, s, t, j, u);
    LeaderLeaves(cfg, s, t, u);
  }

  lemma WorkLeaves(cfg: Config, s: State, t: nat, j: nat, u: nat)
    requires Shape(cfg, s) && t < cfg.threads && u < cfg.threads && u != t
    ensures WorkStep(cfg, s, t, j).th[u] == s.th[u]
  {
    hide AllIn;
  }

  lemma LeaderLeaves(cfg: Config, s: State, t: nat, u: nat)
    requires Shape(cfg, s) && t < cfg.threads && u < cfg.threads && u != t
    ensures LeaderStep(cfg, s, t).th[u] == s.th[u]
  {
  }

  lemma DoneFits(cfg: Config, r: nat, lead: int, t: nat, th: Thread)
    requires PcOk(cfg, r, lead, t, th)
    ensures |th.done| <= cfg.threads
  {
    assert th.done <= Below(cfg.threads);
    SubsetSize(th.done, Below(cfg.threads));
  }

  lemma WorkLater(cfg: Config, s: State, t: nat, j: nat)
    requires Shape(cfg, s) && t < cfg.threads && PcOk(cfg, s.round, Lead(cfg, s), t, s.th[t])
    requires var pc := s.th[t].pc; Scanning(pc) || pc.CopyOwn? || pc.MarkOwn? || pc.ChunkDone?
    requires WorkStep(cfg, s, t, j) != s
    ensures Later(cfg.threads, s.th[t], WorkStep(cfg, s, t, j).th[t])
  {
    hide AllIn;
    if s.th[t].pc.Scan? {
      DoneFits(cfg, s.round, Lead(cfg, s), t, s.th[t]);
    } else if s.th[t].pc.Mark? {
      MarkLater(cfg, s, t, j);
    }
  }

  lemma MarkLater(cfg: Config, s: State, t: nat, j: nat)
    requires Shape(cfg, s) && t < cfg.threads && PcOk(cfg, s.round, Lead(cfg, s), t, s.th[t]) && s.th[t].pc.Mark?
    ensures Later(cfg.threads, s.th[t], WorkStep(cfg, s, t, j).th[t])
  {
    var done := s.th[t].done;
    assert |done + {s.th[t].pc.j}| == |done| + 1;
  }

  lemma LeaderLater(cfg: Config, s: State, t: nat)
    requires Shape(cfg, s) && t < cfg.threads && Leading(s.th[t].pc) && LeaderStep(cfg, s, t) != s
    ensures Later(cfg.threads, s.th[t], LeaderStep(cfg, s, t).th[t])
  {
  }

  lemma FollowerLater(cfg: Config, s: State, t: nat)
    requires Shape(cfg, s) && t < cfg.threads && Trailing(s.th[t].pc) && FollowerStep(cfg, s, t) != s
    ensures Later(cfg.threads, s.th[t], FollowerStep(cfg, s, t).th[t])
  {
  }

  lemma BeginLater(cfg: Config, s: State, t: nat)
    requires Shape(cfg, s) && t < cfg.threads
    ensures s.th[t].pc.Elect? || s.th[t].pc.TryCas? ==> Later(cfg.threads, s.th[t], ElectStep(cfg, s, t).th[t])
    ensures (s.th[t].pc.Out? || s.th[t].pc.WaitReady?) && EnterStep(cfg, s, t) != s ==>
              Later(cfg.threads, s.th[t], EnterStep(cfg, s, t).th[t])
  {
  }

  lemma Advances(cfg: Config, s: State, t: nat, j: nat)
    requires Inv(cfg, s) && Shape(cfg, s) && t < cfg.threads && Step(cfg, s, t, j) != s
    ensures Later(cfg.threads, s.th[t], Step(cfg, s, t, j).th[t])
  {
    Here(cfg, s, t);
    hide Inv, PcOk, Later, WorkStep, LeaderStep, FollowerStep, ElectStep, EnterStep;
    var pc := s.th[t].pc;
    if Scanning(pc) || pc.CopyOwn? || pc.MarkOwn? || pc.ChunkDone? {
      WorkLater(cfg, s, t, j);
    } else if Leading(pc) {
      LeaderLater(cfg, s, t);
    } else if Trailing(pc) {
      FollowerLater(cfg, s, t);
    } else {
      BeginLater(cfg, s, t);
    }
  }

  lemma LaterIsFurther(n: nat, th: Thread, th': Thread)
    requires Later(n, th, th') && Rank(n, th) < 3 * n + 20
    ensures Position(n, th') > Position(n, th)
  {
    if th'.ticket == th.ticket + 1 {
      assert (th.ticket + 1) * (3 * n + 20) == th.ticket * (3 * n + 20) + (3 * n + 20);
    }
  }

  lemma RankFits(cfg: Config, s: State, t: nat)
    requires Inv(cfg, s) && t < cfg.threads && Shape(cfg, s)
    ensures Rank(cfg.threads, s.th[t]) < 3 * cfg.threads + 20
  {
    Here(cfg, s, t);
    DoneFits(cfg, s.round, Lead(cfg, s), t, s.th[t]);
    hide Inv, PcOk;
  }

  lemma NotAhead(cfg: Config, s: State, t: nat, u: nat)
    requires Inv(cfg, s) && Shape(cfg, s) && t < cfg.threads && u < cfg.threads
    ensures s.th[t].ticket <= s.th[u].ticket + 1
  {
    Here(cfg, s, t);
    Here(cfg, s, u);
    hide Inv;
  }

  lemma Nearer(cfg: Config, s: State, t: nat, j: nat, u: nat, k: nat)
    requires Inv(cfg, s) && Shape(cfg, s) && t < cfg.threads && u < cfg.threads && s.th[u].ticket < k
    requires Step(cfg, s, t, j) != s
    ensures Sum(ToGo(cfg.threads, Step(cfg, s, t, j), k)) < Sum(ToGo(cfg.threads, s, k))
  {
    hide Inv, Step, Later, Rank;
    var n, s' := cfg.threads, Step(cfg, s, t, j);
    Advances(cfg, s, t, j);
    RankFits(cfg, s, t);
    NotAhead(cfg, s, t, u);
    LaterIsFurther(n, s.th[t], s'.th[t]);
    WithinCalls(s.th[t].ticket, k, 3 * n + 20, Rank(n, s.th[t]));
    forall v | 0 <= v < n ensures ToGo(n, s', k)[v] <= ToGo(n, s, k)[v] {
      if v != t { OthersStay(cfg, s, t, j, v); }
    }
    SumLess(ToGo(n, s, k), ToGo(n, s', k), t);
  }

  /** In every reachable state, with threads inside or outside the round, one can move. */
  lemma {:induction false} AlwaysMoves(cfg: Config, sched: Schedule) returns (t: nat, j: nat)
    requires cfg.Ok() && Legal(cfg, sched)
    ensures t < cfg.threads && Step(cfg, After(cfg, sched), t, j) != After(cfg, sched)
  {
    hide Inv, Step;
    var s := After(cfg, sched);
    EveryRun(cfg, sched);
    if v :| 0 <= v < cfg.threads && s.th[v].pc.Out? && s.th[v].ticket != s.round + 1 {
      t, j := v, 0;
      Enters(cfg, s, t);
    } else {
      NoDeadlock(cfg, sched);
      var v :| 0 <= v < cfg.threads && !Blocked(cfg, s, v);
      t := v;
      j :| Step(cfg, s, t, j) != s;
    }
  }

  lemma Enters(cfg: Config, s: State, t: nat)
    requires Shape(cfg, s) && t < cfg.threads && s.th[t].pc.Out?
    ensures Step(cfg, s, t, 0) != s
  {
    assert Step(cfg, s, t, 0).th[t].pc != s.th[t].pc;
  }

  /** Each thread has returned from k reduces, and k results have been handed on. */
  ghost predicate AllDone(s: State, k: nat) {
    |s.published| >= k && forall t :: 0 <= t < |s.th| ==> s.th[t].ticket >= k
  }

  /** When all have returned, the leader has as well, and so it has published. */
  lemma AllPublished(cfg: Config, s: State, k: nat)
    requires Inv(cfg, s) && Shape(cfg, s) && forall t :: 0 <= t < |s.th| ==> s.th[t].ticket >= k
    ensures |s.published| >= k
  {
    Here(cfg, s, 0);
    if s.round < k { assert false; }
  }

  lemma Then(cfg: Config, sched: Schedule, t: nat, j: nat)
    requires cfg.Ok() && Legal(cfg, sched) && t < cfg.threads
    ensures Legal(cfg, sched + [(t, j)]) && After(cfg, sched + [(t, j)]) == Step(cfg, After(cfg, sched), t, j)
  {
    assert (sched + [(t, j)])[..|sched|] == sched;
  }

  /** From every reachable state and for every k, the threads can go on until each has finished k reduces. */
  lemma {:induction false} ReducesComplete(cfg: Config, sched: Schedule, k: nat) returns (more: Schedule)
    requires cfg.Ok() && Legal(cfg, sched)
    ensures Legal(cfg, sched + more) && AllDone(After(cfg, sched + more), k)
    decreases Sum(ToGo(cfg.threads, After(cfg, sched), k))
  {
    hide Inv, Step, After, ToGo, Sum;
    var s := After(cfg, sched);
    EveryRun(cfg, sched);
    if u :| 0 <= u < cfg.threads && s.th[u].ticket < k {
      var t, j := AlwaysMoves(cfg, sched);
      Nearer(cfg, s, t, j, u, k);
      Then(cfg, sched, t, j);
      more := ReducesComplete(cfg, sched + [(t, j)], k);
      assert sched + [(t, j)] + more == sched + ([(t, j)] + more);
      more := [(t, j)] + more;
    } else {
      more := [];
      assert sched + more == sched;
      AllPublished(cfg, s, k);
    }
  }
}
