/**
  The reduction under stealing: whatever the interleaving of claims, runs, local
  reductions and compare-and-swap merges, a finished execution leaves in the shared
  value the reduction of all its chunk results.
 */
module WorkStealingReduction {
  import opened WorkStealing
  import opened WorkStealingSafety
  import opened WorkStealingRuns

  /** The sequential reduction of chunks 0..n-1. */
  function SeqFold(cfg: Config, a: Args, n: nat): Value {
    if n == 0 then cfg.init else cfg.reducer(cfg.cont(a, n - 1, n - 1), SeqFold(cfg, a, n - 1))
  }

  /** The reduction of the chunks in cs below n. */
  ghost function Fold(cfg: Config, a: Args, cs: set<nat>, n: nat): Value {
    if n == 0 then cfg.init
    else if n - 1 in cs then cfg.reducer(cfg.cont(a, n - 1, n - 1), Fold(cfg, a, cs, n - 1))
    else Fold(cfg, a, cs, n - 1)
  }

  lemma {:induction false} FoldAll(cfg: Config, a: Args, cs: set<nat>, n: nat)
    requires forall c: nat :: c < n ==> c in cs
    ensures Fold(cfg, a, cs, n) == SeqFold(cfg, a, n)
  {
    if n > 0 {
      assert n - 1 in cs;
      FoldAll(cfg, a, cs, n - 1);
    }
  }

  lemma {:induction false} FoldNone(cfg: Config, a: Args, n: nat)
    ensures Fold(cfg, a, {}, n) == cfg.init
  {
    if n > 0 { FoldNone(cfg, a, n - 1); }
  }

  lemma {:induction false} FoldUnion(cfg: Config, a: Args, xs: set<nat>, ys: set<nat>, n: nat)
    requires cfg.Lawful() && xs !! ys
    ensures Fold(cfg, a, xs + ys, n) == cfg.reducer(Fold(cfg, a, xs, n), Fold(cfg, a, ys, n))
  {
    if n > 0 {
      FoldUnion(cfg, a, xs, ys, n - 1);
      Swap(cfg, cfg.cont(a, n - 1, n - 1), Fold(cfg, a, xs, n - 1), Fold(cfg, a, ys, n - 1));
    }
  }

  lemma Swap(cfg: Config, r: Value, x: Value, y: Value)
    requires cfg.Lawful()
    ensures cfg.reducer(r, cfg.reducer(x, y)) == cfg.reducer(cfg.reducer(r, x), y)
    ensures cfg.reducer(r, cfg.reducer(x, y)) == cfg.reducer(x, cfg.reducer(r, y))
  {
    assert cfg.reducer(r, x) == cfg.reducer(x, r);
  }

  /** A ranged call returns the reduction of its range. */
  lemma {:induction false} FoldInterval(cfg: Config, a: Args, lo: nat, hi: nat, n: nat)
    requires cfg.Lawful() && lo <= hi
    ensures Fold(cfg, a, Interval(lo, hi), n) ==
            if n <= lo then cfg.init else cfg.cont(a, lo, if n <= hi then n - 1 else hi)
  {
    hide *;
    if n == 0 {
      FoldNothing(cfg, a, Interval(lo, hi));
    } else {
      FoldInterval(cfg, a, lo, hi, n - 1);
      FoldStep(cfg, a, Interval(lo, hi), n);
      Neutral(cfg, cfg.cont(a, n - 1, n - 1));
      if lo < n - 1 <= hi { LongerRange(cfg, a, lo, n - 1); }
    }
  }

  lemma FoldNothing(cfg: Config, a: Args, cs: set<nat>)
    ensures Fold(cfg, a, cs, 0) == cfg.init
  {
  }

  lemma FoldStep(cfg: Config, a: Args, cs: set<nat>, n: nat)
    requires n > 0
    ensures Fold(cfg, a, cs, n) ==
            if n - 1 in cs then cfg.reducer(cfg.cont(a, n - 1, n - 1), Fold(cfg, a, cs, n - 1)) else Fold(cfg, a, cs, n - 1)
  {
  }

  lemma Neutral(cfg: Config, x: Value)
    requires cfg.Lawful()
    ensures cfg.reducer(cfg.init, x) == x == cfg.reducer(x, cfg.init)
  {
  }

  lemma LongerRange(cfg: Config, a: Args, i: nat, j: nat)
    requires cfg.Lawful() && i < j
    ensures cfg.cont(a, i, j) == cfg.reducer(cfg.cont(a, j, j), cfg.cont(a, i, j - 1))
  {
  }

  // ------------------------------------------------------------------ the invariant

  /** The chunks whose results the shared value already contains. */
  ghost function Merged(w: seq<Place>, ths: seq<Thread>): set<nat> {
    set c: nat | c < |w| && (w[c] == Reported || (w[c].Ran? && w[c].t < |ths| && ths[w[c].t].pc.Report?))
  }

  ghost predicate LocalsOk(cfg: Config, w: seq<Place>, ths: seq<Thread>, a: Args) {
    forall t :: 0 <= t < |ths| && InLoop(ths[t].pc) ==> ths[t].val == Fold(cfg, a, InPlace(w, Ran(t)), cfg.chunks)
  }

  ghost predicate ResultsOk(cfg: Config, results: seq<Value>, given: seq<Args>) {
    |results| <= |given| && forall e :: 0 <= e < |results| ==> results[e] == SeqFold(cfg, given[e], cfg.chunks)
  }

  function Last(s: State): Args requires s.given != [] { s.given[|s.given| - 1] }

  ghost predicate Reduction(cfg: Config, s: State)
    requires |s.th| > 0
  {
    && ResultsOk(cfg, s.results, s.given)
    && (s.th[0].pc.StoreDone? || s.th[0].pc.StoreCounter? ==> s.ret == cfg.init)
    && (!Between(s.th[0].pc) ==> s.given != [] && s.ret == Fold(cfg, Last(s), Merged(s.where, s.th), cfg.chunks))
    && (!Closed(s.th[0].pc) ==> s.given != [] && LocalsOk(cfg, s.where, s.th, Last(s)))
    && (Closed(s.th[0].pc) ==> forall t :: 0 <= t < |s.th| && InLoop(s.th[t].pc) ==> s.th[t].val == cfg.init)
  }

  // ------------------------------------------------------------------ steps keep it

  lemma MergedFrame(w: seq<Place>, ths: seq<Thread>, t: nat, th: Thread)
    requires t < |ths| && th.pc.Report? == ths[t].pc.Report?
    ensures Merged(w, ths[t := th]) == Merged(w, ths)
  {
  }

  /** A step inside the loop, or into it, that moves no chunk and merges nothing. */
  lemma QuietReduces(cfg: Config, s: State, t: nat, s': State)
    requires |s.th| > 0 && Reduction(cfg, s) && t < |s.th|
    requires s'.where == s.where && s'.ret == s.ret && s'.given == s.given && s'.results == s.results
    requires |s'.th| == |s.th| && s'.th == s.th[t := s'.th[t]] && !s'.th[t].pc.Report? && !s.th[t].pc.Report?
    requires t == 0 ==> !Closed(s.th[0].pc) && !Closed(s'.th[0].pc)
    requires InLoop(s'.th[t].pc) ==> (InLoop(s.th[t].pc) && s'.th[t].val == s.th[t].val)
                                     || (s'.th[t].val == cfg.init && InPlace(s.where, Ran(t)) == {})
    ensures Reduction(cfg, s')
  {
    MergedFrame(s.where, s.th, t, s'.th[t]);
    FoldNone(cfg, if s.given == [] then s.args else Last(s), cfg.chunks);
  }

  lemma EnterReduces(cfg: Config, s: State, t: nat, until: bool)
    requires Control(cfg, s) && Reduction(cfg, s) && t < cfg.threads
    requires if t == 0 then s.th[0].pc.Enter? else s.th[t].pc.Idle?
    ensures Reduction(cfg, EnterLoop(cfg, s, t, until))
  {
    hide RanOk, Tiles, PlacesOk, LocalsOk, ResultsOk, OwnerOk, Reduction;
    assert PcOk(cfg, t, s.th[t]) && HandsOk(s.where, t, s.th[t]);
    assert InPlace(s.where, Ran(t)) == {};
    QuietReduces(cfg, s, t, EnterLoop(cfg, s, t, until));
  }

  lemma LoopReduces(cfg: Config, s: State, t: nat, ch: Choice)
    requires Control(cfg, s) && Reduction(cfg, s) && t < cfg.threads && cfg.returning
    requires s.th[t].pc.Snap? || s.th[t].pc.Clear? || s.th[t].pc.MergeLoad? || (s.th[t].pc.Claim? && Next(cfg, s) >= cfg.chunks)
    ensures Reduction(cfg, Step(cfg, s, t, ch))
  {
    hide RanOk, Tiles, PlacesOk, LocalsOk, ResultsOk, OwnerOk, Reduction, HandsOk;
    assert PcOk(cfg, t, s.th[t]);
    QuietReduces(cfg, s, t, Step(cfg, s, t, ch));
  }

  lemma ClaimFrames(cfg: Config, a: Args, w: seq<Place>, ths: seq<Thread>, t: nat, lo: nat, hi: nat, th: Thread)
    requires t < |ths| && lo <= hi < |w| && ths[t].pc.Claim? && !th.pc.Report? && th.val == ths[t].val
    requires forall c :: lo <= c <= hi ==> w[c] == Free
    requires LocalsOk(cfg, w, ths, a)
    ensures LocalsOk(cfg, Mark(w, lo, hi, Held(t)), ths[t := th], a)
    ensures Merged(Mark(w, lo, hi, Held(t)), ths[t := th]) == Merged(w, ths)
  {
    var w' := Mark(w, lo, hi, Held(t));
    forall u: nat ensures InPlace(w', Ran(u)) == InPlace(w, Ran(u)) {}
  }

  lemma ClaimReduces(cfg: Config, s: State, t: nat)
    requires Control(cfg, s) && Reduction(cfg, s) && t < cfg.threads && s.th[t].pc.Claim? && Next(cfg, s) < cfg.chunks
    ensures Reduction(cfg, ClaimStep(cfg, s, t, s.th[t].pc.grab))
  {
    hide RanOk, Tiles, ResultsOk, HandsOk, InPlace, Merged, LocalsOk, Mark, Fold;
    var s' := ClaimStep(cfg, s, t, s.th[t].pc.grab);
    assert PcOk(cfg, t, s.th[t]);
    var lo := Next(cfg, s);
    var hi := Clip(lo + s.th[t].pc.grab, cfg.chunks) - 1;
    ClaimThreads(cfg, s, t, lo, hi);
    assert s.where[lo] == Free;
    assert s'.th == s.th[t := s'.th[t]];
    ClaimFrames(cfg, Last(s), s.where, s.th, t, lo, hi, s'.th[t]);
  }

  /** Running a held range moves its reduction into the runner's local value. */
  lemma RunLocals(cfg: Config, a: Args, w: seq<Place>, ths: seq<Thread>, t: nat, lo: nat, hi: nat, th: Thread)
    requires cfg.Lawful() && LocalsOk(cfg, w, ths, a) && t < |ths| && |w| == cfg.chunks && lo <= hi < |w|
    requires ths[t].pc == Run(lo, hi) && forall c :: lo <= c <= hi ==> w[c] == Held(t)
    requires th.val == cfg.reducer(cfg.cont(a, lo, hi), ths[t].val)
    ensures LocalsOk(cfg, Mark(w, lo, hi, Ran(t)), ths[t := th], a)
  {
    var w' := Mark(w, lo, hi, Ran(t));
    var mine := InPlace(w, Ran(t));
    assert InPlace(w', Ran(t)) == Interval(lo, hi) + mine;
    assert Interval(lo, hi) !! mine;
    FoldUnion(cfg, a, Interval(lo, hi), mine, cfg.chunks);
    FoldInterval(cfg, a, lo, hi, cfg.chunks);
    forall u: nat | u != t ensures InPlace(w', Ran(u)) == InPlace(w, Ran(u)) {}
  }

  lemma RunMerged(w: seq<Place>, ths: seq<Thread>, t: nat, lo: nat, hi: nat, th: Thread)
    requires t < |ths| && lo <= hi < |w| && !th.pc.Report? && !ths[t].pc.Report?
    requires forall c :: lo <= c <= hi ==> w[c] == Held(t)
    ensures Merged(Mark(w, lo, hi, Ran(t)), ths[t := th]) == Merged(w, ths)
  {
  }

  lemma RunReduces(cfg: Config, s: State, t: nat, lo: nat, hi: nat)
    requires cfg.Lawful() && cfg.returning
    requires Control(cfg, s) && Reduction(cfg, s) && t < cfg.threads && s.th[t].pc == Run(lo, hi) && lo <= hi
    ensures Reduction(cfg, RunStep(cfg, s, t, lo, hi))
  {
    hide RanOk, Tiles, ResultsOk, PlacesOk, InPlace, Merged, Fold, LocalsOk, Mark, AllReported;
    WorkPinsOwner(cfg, s, t);
    assert PcOk(cfg, t, s.th[t]) && HandsOk(s.where, t, s.th[t]);
    var s' := RunStep(cfg, s, t, lo, hi);
    assert s'.th == s.th[t := s'.th[t]];
    RunLocals(cfg, s.args, s.where, s.th, t, lo, hi, s'.th[t]);
    RunMerged(s.where, s.th, t, lo, hi, s'.th[t]);
  }

  /** A successful compare-and-swap moves the thread's reduction into the shared value. */
  lemma MergeShared(cfg: Config, a: Args, w: seq<Place>, ths: seq<Thread>, t: nat, th: Thread)
    requires cfg.Lawful() && LocalsOk(cfg, w, ths, a) && t < |ths| && InLoop(ths[t].pc) && !ths[t].pc.Report?
    requires th.pc.Report?
    ensures Fold(cfg, a, Merged(w, ths[t := th]), cfg.chunks)
            == cfg.reducer(ths[t].val, Fold(cfg, a, Merged(w, ths), cfg.chunks))
  {
    var mine := InPlace(w, Ran(t));
    assert Merged(w, ths[t := th]) == mine + Merged(w, ths);
    assert mine !! Merged(w, ths);
    FoldUnion(cfg, a, mine, Merged(w, ths), cfg.chunks);
  }

  lemma MergeReduces(cfg: Config, s: State, t: nat, seen: Value, fail: bool)
    requires cfg.Lawful() && cfg.returning
    requires Control(cfg, s) && Reduction(cfg, s) && t < cfg.threads && s.th[t].pc == MergeCas(seen)
    ensures Reduction(cfg, MergeStep(cfg, s, t, seen, fail))
  {
    hide RanOk, Tiles, ResultsOk, PlacesOk, HandsOk, InPlace, Merged, Fold, AllReported;
    WorkPinsOwner(cfg, s, t);
    var s' := MergeStep(cfg, s, t, seen, fail);
    assert s'.th == s.th[t := s'.th[t]];
    if s'.th[t].pc.Report? {
      MergeShared(cfg, s.args, s.where, s.th, t, s'.th[t]);
    } else {
      MergedFrame(s.where, s.th, t, s'.th[t]);
    }
  }

  lemma ReportReduces(cfg: Config, s: State, t: nat)
    requires Control(cfg, s) && Reduction(cfg, s) && t < cfg.threads && s.th[t].pc.Report?
    ensures Reduction(cfg, ReportStep(s, t))
  {
    hide RanOk, Tiles, ResultsOk, PlacesOk;
    WorkPinsOwner(cfg, s, t);
    var s' := ReportStep(s, t);
    assert Merged(s'.where, s'.th) == Merged(s.where, s.th);
    forall u: nat | u != t ensures InPlace(s'.where, Ran(u)) == InPlace(s.where, Ran(u)) {}
  }

  lemma OpenReduces(cfg: Config, s: State)
    requires Control(cfg, s) && Reduction(cfg, s) && s.th[0].pc.StoreCounter?
    ensures Reduction(cfg, OpenStep(cfg, s))
  {
    hide RanOk, Tiles, PlacesOk;
    var s' := OpenStep(cfg, s);
    assert Merged(s'.where, s'.th) == {};
    forall u: nat ensures InPlace(s'.where, Ran(u)) == {} {}
    FoldNone(cfg, Last(s'), cfg.chunks);
  }

  /** The owner leaves its wait: nothing is left in anyone's locals. */
  lemma CloseReduces(cfg: Config, s: State, ch: Choice)
    requires Control(cfg, s) && Reduction(cfg, s) && s.th[0].pc.Waiting?
    ensures Reduction(cfg, Step(cfg, s, 0, ch))
  {
    hide RanOk, Tiles, PlacesOk, ResultsOk;
    var s' := Step(cfg, s, 0, ch);
    if s.done >= cfg.chunks {
      FullCount(s.where);
      forall u: nat ensures InPlace(s.where, Ran(u)) == {} {}
      FoldNone(cfg, Last(s), cfg.chunks);
      MergedFrame(s.where, s.th, 0, s'.th[0]);
    }
  }

  lemma CollectReduces(cfg: Config, s: State, ch: Choice)
    requires Control(cfg, s) && Reduction(cfg, s) && s.th[0].pc.Collect?
    ensures Reduction(cfg, Step(cfg, s, 0, ch))
  {
    hide RanOk, Tiles, PlacesOk, HandsOk;
    FoldAll(cfg, Last(s), Merged(s.where, s.th), cfg.chunks);
  }

  /** The remaining stores of the owner. */
  lemma OwnerReduces(cfg: Config, s: State, ch: Choice)
    requires Control(cfg, s) && Reduction(cfg, s) && cfg.returning
    requires var pc := s.th[0].pc;
             pc.Idle? || pc.StoreRet? || pc.StoreDone? || pc.SetVictim? || pc.Recheck? || pc.ClearOwn?
    ensures Reduction(cfg, Step(cfg, s, 0, ch))
  {
    hide RanOk, Tiles, PlacesOk, HandsOk, ResultsOk, OwnerOk;
    var s' := Step(cfg, s, 0, ch);
    MergedFrame(s.where, s.th, 0, s'.th[0]);
  }

  lemma StepReduces(cfg: Config, s: State, t: nat, ch: Choice)
    requires cfg.Lawful() && cfg.returning && Control(cfg, s) && Reduction(cfg, s) && t < cfg.threads
    ensures Reduction(cfg, Step(cfg, s, t, ch))
  {
    hide HandsOk, RanOk, Tiles, PlacesOk, OwnerOk, InPlace, AllReported, Reduction;
    assert PcOk(cfg, t, s.th[t]);
    match s.th[t].pc
    case Idle => if t == 0 { OwnerReduces(cfg, s, ch); } else { EnterReduces(cfg, s, t, ch.until); }
    case Enter => EnterReduces(cfg, s, t, true);
    case StoreCounter => OpenReduces(cfg, s);
    case Waiting => CloseReduces(cfg, s, ch);
    case Collect => CollectReduces(cfg, s, ch);
    case Claim(g) => if Next(cfg, s) < cfg.chunks { ClaimReduces(cfg, s, t); } else { LoopReduces(cfg, s, t, ch); }
    case Run(lo, hi) => RunReduces(cfg, s, t, lo, hi);
    case MergeCas(seen) => MergeReduces(cfg, s, t, seen, ch.fail);
    case Report => ReportReduces(cfg, s, t);
    case Snap => LoopReduces(cfg, s, t, ch);
    case Clear(_, _) => LoopReduces(cfg, s, t, ch);
    case MergeLoad => LoopReduces(cfg, s, t, ch);
    case _ => OwnerReduces(cfg, s, ch);
  }

  lemma {:induction false} EveryRunReduces(cfg: Config, a: Args, v: Value, sched: Schedule)
    requires cfg.Sized() && cfg.Lawful() && cfg.returning && Legal(cfg, sched)
    ensures Reduction(cfg, After(cfg, a, v, sched))
  {
    hide Control, Reduction, Step;
    if sched == [] {
      InitReduces(cfg, a, v);
    } else {
      var last := |sched| - 1;
      EveryRunReduces(cfg, a, v, sched[..last]);
      EveryRunControlled(cfg, a, v, sched[..last]);
      StepReduces(cfg, After(cfg, a, v, sched[..last]), sched[last].0, sched[last].1);
    }
  }

  lemma InitReduces(cfg: Config, a: Args, v: Value)
    requires cfg.Sized()
    ensures Reduction(cfg, Init(cfg, a, v))
  {
  }

  /**
    In every run, the value recorded for each finished execution is the sequential
    reduction of all chunk results on that execution's arguments, which is also
    what one call on the whole range returns.
   */
  lemma {:induction false} StolenEqualsSequential(cfg: Config, a: Args, v: Value, sched: Schedule, e: nat)
    requires cfg.Sized() && cfg.Lawful() && cfg.returning && Legal(cfg, sched)
    requires e < |After(cfg, a, v, sched).results|
    ensures var s := After(cfg, a, v, sched);
            e < |s.given| && s.results[e] == SeqFold(cfg, s.given[e], cfg.chunks)
                          && s.results[e] == cfg.cont(s.given[e], 0, cfg.chunks - 1)
  {
    EveryRunReduces(cfg, a, v, sched);
    var s := After(cfg, a, v, sched);
    hide After, Reduction, Fold;
    var all := Interval(0, cfg.chunks - 1);
    FoldAll(cfg, s.given[e], all, cfg.chunks);
    FoldInterval(cfg, s.given[e], 0, cfg.chunks - 1, cfg.chunks);
  }
}
