/**
  How far the shared claim counter can run past the last chunk.  The counter is a
  chunk_id_t, so this bound is what its type must be able to hold.
 */
module WorkStealingBound {
  import opened Counting
  import opened WorkStealing
  import opened WorkStealingSafety
  import opened WorkStealingRuns

  /** The most one fetch-and-add can add. */
  function MaxGrab(cfg: Config): nat
    requires cfg.threads > 0
  {
    match cfg.policy
    case SingleChunk => 1
    case Guided(w) => CeilDiv(cfg.chunks, cfg.threads) * (if w == 0 then 1 else w)
  }

  /** Threads past a check of the counter that may still add to it without checking again. */
  predicate MayClaim(cfg: Config, pc: PC) {
    pc.Claim? || (cfg.policy.SingleChunk? && (pc.Clear? || pc.Run?))
  }

  ghost function Claimers(cfg: Config, ths: seq<Thread>): set<nat> {
    set t: nat | t < |ths| && MayClaim(cfg, ths[t].pc)
  }

  ghost predicate Bounded(cfg: Config, s: State) {
    && cfg.Sized() && |s.th| == cfg.threads
    && (forall t :: 0 <= t < |s.th| && s.th[t].pc.Claim? ==> s.th[t].pc.grab <= MaxGrab(cfg))
    && s.counter + MaxGrab(cfg) * |Claimers(cfg, s.th)| <= cfg.chunks - 1 + MaxGrab(cfg) * cfg.threads
  }

  lemma CeilDivMonotone(a: nat, b: nat, d: nat)
    requires d > 0 && a <= b
    ensures CeilDiv(a, d) <= CeilDiv(b, d)
    ensures a >= 1 ==> CeilDiv(a, d) >= 1
  {
    DivMonotone(a + d - 1, b + d - 1, d);
    if a >= 1 { DivMonotone(d, a + d - 1, d); }
  }

  lemma DivMonotone(a: nat, b: nat, d: nat)
    requires d > 0 && a <= b
    ensures a / d <= b / d
  {
    if a / d > b / d {
      var q := b / d;
      assert d * (a / d) <= a;
      assert b < d * (q + 1);
      MulMonotone(q + 1, a / d, d);
    }
  }

  lemma MulMonotone(x: nat, y: nat, k: nat)
    requires x <= y
    ensures x * k <= y * k && k * x <= k * y
  {
  }

  /** Whatever the snapshot, a guided claim asks for between one chunk and MaxGrab. */
  lemma GrabBounds(cfg: Config, snapshot: int, owner: bool)
    requires cfg.threads > 0 && 0 <= snapshot < cfg.chunks && cfg.policy.Guided?
    ensures 1 <= Grab(cfg, snapshot, owner) <= MaxGrab(cfg)
  {
    CeilDivMonotone(cfg.chunks - snapshot, cfg.chunks, cfg.threads);
    var share, top := CeilDiv(cfg.chunks - snapshot, cfg.threads), CeilDiv(cfg.chunks, cfg.threads);
    var w := cfg.policy.weight;
    if w == 0 {
      assert share * w == 0;
    } else {
      MulMonotone(share, top, w);
      MulMonotone(1, w, top);
    }
  }

  lemma ClaimersFit(cfg: Config, ths: seq<Thread>)
    ensures |Claimers(cfg, ths)| <= |ths|
  {
    SubsetSize(Claimers(cfg, ths), Interval(0, |ths| - 1));
  }

  /** Below the end there is always room for every thread's claim. */
  lemma RoomBelowEnd(cfg: Config, s: State)
    requires cfg.Sized() && |s.th| == cfg.threads && s.counter < cfg.chunks
    requires forall t :: 0 <= t < |s.th| && s.th[t].pc.Claim? ==> s.th[t].pc.grab <= MaxGrab(cfg)
    ensures Bounded(cfg, s)
  {
    ClaimersFit(cfg, s.th);
    MulMonotone(|Claimers(cfg, s.th)|, cfg.threads, MaxGrab(cfg));
  }

  lemma OthersUntouched(cfg: Config, s: State, t: nat, ch: Choice)
    requires cfg.Sized() && t < |s.th| && PcOk(cfg, t, s.th[t])
    ensures var s' := Step(cfg, s, t, ch); s'.th == s.th[t := s'.th[t]]
  {
    hide Mark, Record, Grab;
    var s' := Step(cfg, s, t, ch);
    forall u | 0 <= u < |s.th| && u != t ensures s'.th[u] == s.th[u] {}
    assert s'.th == s.th[t := s'.th[t]];
  }

  lemma OwnGrab(cfg: Config, s: State, t: nat, ch: Choice)
    requires cfg.Sized() && t < |s.th| && PcOk(cfg, t, s.th[t])
    requires s.th[t].pc.Claim? ==> s.th[t].pc.grab <= MaxGrab(cfg)
    ensures var pc := Step(cfg, s, t, ch).th[t].pc; pc.Claim? ==> pc.grab <= MaxGrab(cfg)
  {
    hide Mark, Record, SnapStep;
    if s.th[t].pc.Snap? { SnapGrab(cfg, s, t); }
  }

  lemma SnapGrab(cfg: Config, s: State, t: nat)
    requires cfg.Sized() && t < |s.th| && PcOk(cfg, t, s.th[t]) && s.th[t].pc.Snap?
    ensures var pc := SnapStep(cfg, s, t).th[t].pc; pc.Claim? ==> pc.grab <= MaxGrab(cfg)
  {
    if 0 <= s.counter < cfg.chunks { GrabBounds(cfg, s.counter, t == 0); }
  }

  lemma StepGrabs(cfg: Config, s: State, t: nat, ch: Choice)
    requires Control(cfg, s) && Bounded(cfg, s) && t < cfg.threads
    ensures var s' := Step(cfg, s, t, ch);
            forall u :: 0 <= u < |s'.th| && s'.th[u].pc.Claim? ==> s'.th[u].pc.grab <= MaxGrab(cfg)
  {
    hide HandsOk, RanOk, Tiles, PlacesOk, OwnerOk, Claimers, Step;
    assert PcOk(cfg, t, s.th[t]);
    OthersUntouched(cfg, s, t, ch);
    OwnGrab(cfg, s, t, ch);
  }

  lemma OwnCounter(cfg: Config, s: State, t: nat, ch: Choice)
    requires cfg.Sized() && t < |s.th| && !s.th[t].pc.Claim? && !s.th[t].pc.StoreCounter?
    ensures Step(cfg, s, t, ch).counter == s.counter
  {
    hide Mark, Record, Grab;
  }

  lemma OwnClaim(cfg: Config, s: State, t: nat, ch: Choice)
    requires cfg.Sized() && t < |s.th| && s.counter >= cfg.chunks && PcOk(cfg, t, s.th[t])
    requires !s.th[t].pc.Claim?
    ensures MayClaim(cfg, Step(cfg, s, t, ch).th[t].pc) ==> MayClaim(cfg, s.th[t].pc)
  {
    hide Mark, Record, Grab;
    match s.th[t].pc
    case Run(lo, hi) => OwnRun(cfg, s, t, lo, hi);
    case _ =>
  }

  lemma OwnRun(cfg: Config, s: State, t: nat, lo: nat, hi: nat)
    requires t < |s.th| && lo <= hi
    ensures MayClaim(cfg, RunStep(cfg, s, t, lo, hi).th[t].pc) ==> cfg.policy.SingleChunk?
  {
    hide Mark, Record;
  }

  /** A step that does not touch the counter past the end makes nobody a claimer. */
  lemma NoNewClaimer(cfg: Config, s: State, t: nat, ch: Choice)
    requires Control(cfg, s) && t < cfg.threads && s.counter >= cfg.chunks
    requires !s.th[t].pc.Claim? && !s.th[t].pc.StoreCounter?
    ensures var s' := Step(cfg, s, t, ch);
            s'.counter == s.counter && Claimers(cfg, s'.th) <= Claimers(cfg, s.th)
  {
    hide HandsOk, RanOk, Tiles, PlacesOk, OwnerOk, Step;
    assert PcOk(cfg, t, s.th[t]);
    OthersUntouched(cfg, s, t, ch);
    OwnCounter(cfg, s, t, ch);
    OwnClaim(cfg, s, t, ch);
  }

  /** A claim that lands at or past the end uses up the claimer's room. */
  lemma ClaimPastEnd(cfg: Config, s: State, t: nat)
    requires Control(cfg, s) && t < cfg.threads && s.th[t].pc.Claim?
    requires s.counter + s.th[t].pc.grab >= cfg.chunks
    ensures var s' := ClaimStep(cfg, s, t, s.th[t].pc.grab);
            s'.counter == s.counter + s.th[t].pc.grab && Claimers(cfg, s'.th) == Claimers(cfg, s.th) - {t}
  {
    hide HandsOk, RanOk, Tiles, PlacesOk, OwnerOk, Mark;
    assert PcOk(cfg, t, s.th[t]);
    var s' := ClaimStep(cfg, s, t, s.th[t].pc.grab);
    assert forall u :: 0 <= u < |s.th| && u != t ==> s'.th[u] == s.th[u];
  }

  lemma StepBounded(cfg: Config, s: State, t: nat, ch: Choice)
    requires Control(cfg, s) && Bounded(cfg, s) && t < cfg.threads
    ensures Bounded(cfg, Step(cfg, s, t, ch))
  {
    hide HandsOk, ThreadsOk, RanOk, Tiles, PlacesOk, OwnerOk, Claimers, MaxGrab;
    var s' := Step(cfg, s, t, ch);
    var g := MaxGrab(cfg);
    StepGrabs(cfg, s, t, ch);
    if s'.counter < cfg.chunks {
      RoomBelowEnd(cfg, s');
    } else if s.th[t].pc.Claim? {
      ClaimPastEnd(cfg, s, t);
      IsClaimer(cfg, s.th, t);
      assert |Claimers(cfg, s'.th)| == |Claimers(cfg, s.th)| - 1;
      assert g * |Claimers(cfg, s'.th)| == g * |Claimers(cfg, s.th)| - g;
    } else {
      NoNewClaimer(cfg, s, t, ch);
      SubsetSize(Claimers(cfg, s'.th), Claimers(cfg, s.th));
      MulMonotone(|Claimers(cfg, s'.th)|, |Claimers(cfg, s.th)|, g);
    }
  }

  lemma IsClaimer(cfg: Config, ths: seq<Thread>, t: nat)
    requires t < |ths| && MayClaim(cfg, ths[t].pc)
    ensures t in Claimers(cfg, ths)
  {
  }

  lemma InitBounded(cfg: Config, a: Args, v: Value)
    requires cfg.Sized()
    ensures Bounded(cfg, Init(cfg, a, v))
  {
    var s := Init(cfg, a, v);
    assert Claimers(cfg, s.th) == {};
    var g := MaxGrab(cfg);
    CeilDivMonotone(cfg.chunks, cfg.chunks, cfg.threads);
    if cfg.policy.Guided? { MulMonotone(1, CeilDiv(cfg.chunks, cfg.threads), if cfg.policy.weight == 0 then 1 else cfg.policy.weight); }
    assert g >= 1;
    MulMonotone(1, g, cfg.threads);
  }

  /**
    In every run the counter plus one maximal grab for every thread that may still
    claim stays below N - 1 + T * MaxGrab; with single chunks that is N - 1 + T.
   */
  lemma {:induction false} CounterBounded(cfg: Config, a: Args, v: Value, sched: Schedule)
    requires cfg.Sized() && Legal(cfg, sched)
    ensures var s := After(cfg, a, v, sched);
            && Bounded(cfg, s)
            && s.counter <= cfg.chunks - 1 + MaxGrab(cfg) * cfg.threads
            && (cfg.policy.SingleChunk? ==> s.counter + |Claimers(cfg, s.th)| <= cfg.chunks - 1 + cfg.threads)
  {
    hide Control, Step, Init;
    if sched == [] {
      InitBounded(cfg, a, v);
    } else {
      var last := |sched| - 1;
      CounterBounded(cfg, a, v, sched[..last]);
      EveryRunControlled(cfg, a, v, sched[..last]);
      StepBounded(cfg, After(cfg, a, v, sched[..last]), sched[last].0, sched[last].1);
    }
    MulMonotone(0, |Claimers(cfg, After(cfg, a, v, sched).th)|, MaxGrab(cfg));
  }
}
