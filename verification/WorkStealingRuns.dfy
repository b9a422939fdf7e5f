/**
  What the invariant means over whole runs: any number of executions, any
  interleaving, thieves that straddle executions included.
 */
module WorkStealingRuns {
  import opened Counting
  import opened WorkStealing
  import opened WorkStealingSafety

  type Schedule = seq<(nat, Choice)>

  ghost predicate Legal(cfg: Config, sched: Schedule) {
    forall i :: 0 <= i < |sched| ==> sched[i].0 < cfg.threads
  }

  /** The state after a schedule; `Step` never changes the number of threads. */
  ghost function After(cfg: Config, a: Args, v: Value, sched: Schedule): (s: State)
    requires cfg.Sized() && Legal(cfg, sched)
    ensures |s.th| == cfg.threads
  {
    if sched == [] then Init(cfg, a, v)
    else
      var last := |sched| - 1;
      Step(cfg, After(cfg, a, v, sched[..last]), sched[last].0, sched[last].1)
  }

  lemma {:induction false} EveryRunControlled(cfg: Config, a: Args, v: Value, sched: Schedule)
    requires cfg.Sized() && Legal(cfg, sched)
    ensures Control(cfg, After(cfg, a, v, sched))
  {
    hide Control;
    if sched == [] {
      InitControl(cfg, a, v);
    } else {
      var last := |sched| - 1;
      EveryRunControlled(cfg, a, v, sched[..last]);
      StepControl(cfg, After(cfg, a, v, sched[..last]), sched[last].0, sched[last].1);
    }
  }

  /**
    In every run, every chunk of every finished execution ran exactly once and
    read exactly the arguments its execution was started with.
   */
  lemma {:induction false} ExactlyOnce(cfg: Config, a: Args, v: Value, sched: Schedule, e: nat, c: nat)
    requires cfg.Sized() && Legal(cfg, sched)
    requires var s := After(cfg, a, v, sched); e < |s.results| && c < cfg.chunks
    ensures var s := After(cfg, a, v, sched);
            |s.results| <= |s.given| == |s.ran| && |s.ran[e]| == cfg.chunks && s.ran[e][c] == [s.given[e]]
  {
    EveryRunControlled(cfg, a, v, sched);
    hide *;
    RanOnce(cfg, After(cfg, a, v, sched), e, c);
  }

  lemma RanOnce(cfg: Config, s: State, e: nat, c: nat)
    requires Control(cfg, s) && e < |s.results| && c < cfg.chunks
    ensures |s.results| <= |s.given| == |s.ran| && |s.ran[e]| == cfg.chunks && s.ran[e][c] == [s.given[e]]
  {
    hide ThreadsOk, Tiles, PlacesOk;
    if e < |s.ran| - 1 {
      assert OnceEach(s.ran[e], s.given[e]);
    } else {
      assert s.where[c] == Reported;
    }
  }

  /** The same for the execution in progress: never twice, never with other arguments. */
  lemma {:induction false} NeverTwice(cfg: Config, a: Args, v: Value, sched: Schedule, c: nat)
    requires cfg.Sized() && Legal(cfg, sched)
    requires After(cfg, a, v, sched).given != [] && c < cfg.chunks
    ensures var s := After(cfg, a, v, sched); var e := |s.given| - 1;
            |s.ran| == e + 1 && |s.ran[e]| == cfg.chunks && (s.ran[e][c] == [] || s.ran[e][c] == [s.given[e]])
  {
    EveryRunControlled(cfg, a, v, sched);
  }

  /**
    The owner leaves its wait only when all chunks are finished, with the done
    counter exactly the number of chunks, whatever the victim pointer holds.
   */
  lemma {:induction false} OwnerLeavesWhenAllFinished(cfg: Config, a: Args, v: Value, sched: Schedule, ch: Choice)
    requires cfg.Sized() && Legal(cfg, sched)
    requires After(cfg, a, v, sched).th[0].pc == Waiting
    ensures var s := After(cfg, a, v, sched);
            Step(cfg, s, 0, ch).th[0].pc != Waiting <==> AllReported(s.where)
    ensures var s := After(cfg, a, v, sched); s.done <= cfg.chunks
    ensures var s := After(cfg, a, v, sched);
            Step(cfg, s, 0, ch).th[0].pc != Waiting ==> s.done == cfg.chunks
  {
    EveryRunControlled(cfg, a, v, sched);
    var s := After(cfg, a, v, sched);
    if s.done >= cfg.chunks { FullCount(s.where); }
    if AllReported(s.where) { AllCounted(s.where); }
    SubsetSize(InPlace(s.where, Reported), Interval(0, cfg.chunks - 1));
  }

  /**
    While the owner is between executions nobody holds a chunk, nobody is about to
    merge or to report: no compare-and-swap of an earlier execution can land after
    the reset of the shared value, and no late report can reach the done counter.
   */
  lemma {:induction false} NoLateWork(cfg: Config, a: Args, v: Value, sched: Schedule, t: nat)
    requires cfg.Sized() && Legal(cfg, sched) && t < cfg.threads
    requires HasWork(After(cfg, a, v, sched).th[t].pc)
    ensures !Closed(After(cfg, a, v, sched).th[0].pc)
  {
    EveryRunControlled(cfg, a, v, sched);
    WorkPinsOwner(cfg, After(cfg, a, v, sched), t);
  }

  /** Once the owner has recorded a result the victim pointer is null until it sets it again. */
  lemma {:induction false} VictimClearedBetween(cfg: Config, a: Args, v: Value, sched: Schedule)
    requires cfg.Sized() && Legal(cfg, sched)
    ensures var s := After(cfg, a, v, sched); Between(s.th[0].pc) ==> !s.victim
  {
    EveryRunControlled(cfg, a, v, sched);
  }

  /**
    Under either policy the clipped ranges claimed in an execution tile 0..N-1:
    when the owner is done waiting they start at 0, abut, end at N-1, and exactly
    one of them, the last claimed, ends at N-1.
   */
  lemma {:induction false} ClaimsTile(cfg: Config, a: Args, v: Value, sched: Schedule)
    requires cfg.Sized() && Legal(cfg, sched)
    requires After(cfg, a, v, sched).th[0].pc.Recheck?
    ensures var s := After(cfg, a, v, sched);
            && Tiles(s.claims, cfg.chunks)
            && (forall i :: 0 <= i < |s.claims| ==> (s.claims[i].hi == cfg.chunks - 1 <==> i == |s.claims| - 1))
  {
    var s := After(cfg, a, v, sched);
    EveryRunControlled(cfg, a, v, sched);
    hide *;
    TilesWhenDone(cfg, s);
  }

  lemma TilesWhenDone(cfg: Config, s: State)
    requires Control(cfg, s) && s.th[0].pc.Recheck?
    ensures Tiles(s.claims, cfg.chunks)
    ensures forall i :: 0 <= i < |s.claims| ==> (s.claims[i].hi == cfg.chunks - 1 <==> i == |s.claims| - 1)
  {
    hide ThreadsOk, RanOk;
    assert s.where[cfg.chunks - 1] != Free;
    forall i | 0 <= i < |s.claims| - 1 ensures s.claims[i].hi != cfg.chunks - 1 {
      TilesIncrease(s.claims, cfg.chunks, i, |s.claims| - 1);
    }
  }

  lemma {:induction false} TilesIncrease(claims: seq<Range>, n: int, i: nat, j: nat)
    requires Tiles(claims, n) && i < j < |claims|
    ensures claims[i].hi < claims[j].lo
    decreases j
  {
    if i + 1 < j { TilesIncrease(claims, n, i, j - 1); }
  }

  /** A tiling covers each chunk exactly once. */
  lemma TilesCoverOnce(claims: seq<Range>, n: int, c: nat) returns (i: nat)
    requires Tiles(claims, n) && c < n
    ensures i < |claims| && claims[i].lo <= c <= claims[i].hi
    ensures forall j :: 0 <= j < |claims| && claims[j].lo <= c <= claims[j].hi ==> j == i
  {
    i := 0;
    while claims[i].hi < c
      invariant i < |claims| && claims[i].lo <= c
      decreases |claims| - i
    {
      i := i + 1;
    }
    forall j | 0 <= j < |claims| && claims[j].lo <= c <= claims[j].hi ensures j == i {
      if j < i { TilesIncrease(claims, n, j, i); }
      if i < j { TilesIncrease(claims, n, i, j); }
    }
  }

  /**
    The owner's wait is never a dead end: while it waits and a chunk is missing,
    some thief has work in hand and its next step is enabled and changes the state.
   */
  lemma {:induction false} WaitingOwnerHasAHelper(cfg: Config, a: Args, v: Value, sched: Schedule, ch: Choice) returns (t: nat)
    requires cfg.Sized() && Legal(cfg, sched)
    requires After(cfg, a, v, sched).th[0].pc == Waiting && After(cfg, a, v, sched).done < cfg.chunks
    ensures 0 < t < cfg.threads
    ensures var s := After(cfg, a, v, sched);
            Step(cfg, s, t, ch.(fail := false)).th[t].pc != s.th[t].pc
  {
    var s := After(cfg, a, v, sched);
    hide After, RanOk, Tiles, Step;
    EveryRunControlled(cfg, a, v, sched);
    t := LateChunk(cfg, s);
    WorkerMoves(cfg, s, t, ch.(fail := false));
  }

  lemma LateChunk(cfg: Config, s: State) returns (t: nat)
    requires Control(cfg, s) && s.th[0].pc == Waiting && s.done < cfg.chunks
    ensures 0 < t < cfg.threads && (HasWork(s.th[t].pc) || s.th[t].count > 0)
  {
    hide RanOk, Tiles;
    if AllReported(s.where) { AllCounted(s.where); }
    var c :| 0 <= c < cfg.chunks && s.where[c] != Reported;
    assert s.where[c] != Free;
    t := s.where[c].t;
    assert PcOk(cfg, 0, s.th[0]) && HandsOk(s.where, 0, s.th[0]);
    NoneInPlace(s.where, Ran(0));
    assert PcOk(cfg, t, s.th[t]) && HandsOk(s.where, t, s.th[t]);
    NoneInPlace(s.where, Ran(t));
  }

  lemma WorkerMoves(cfg: Config, s: State, t: nat, ch: Choice)
    requires Control(cfg, s) && 0 < t < cfg.threads && (HasWork(s.th[t].pc) || s.th[t].count > 0) && !ch.fail
    ensures Step(cfg, s, t, ch).th[t].pc != s.th[t].pc
  {
    hide HandsOk, RanOk, Tiles, OwnerOk;
    assert PcOk(cfg, t, s.th[t]);
  }
}
