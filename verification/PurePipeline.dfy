/**
  The pipeline object itself: the atomics and plain fields that the owner and the
  thieves share, updated in place.  Each method is one source function advanced by
  one atomic action of the calling thread; `RunSchedule` interleaves them freely.
 */
module PurePipelineObject {
  import opened WorkStealing
  import opened WorkStealingSafety
  import opened WorkStealingRuns

  /** Which action each point of the loop stands for. */
  lemma StepByPoint(cfg: Config, s: State, t: nat, ch: Choice)
    requires Control(cfg, s) && t < cfg.threads
    ensures var pc := s.th[t].pc; var s' := Step(cfg, s, t, ch);
            && (pc.Idle? && t > 0 ==> s' == EnterLoop(cfg, s, t, ch.until))
            && (pc.Enter? ==> s' == EnterLoop(cfg, s, t, true))
            && (pc.Snap? ==> s' == SnapStep(cfg, s, t))
            && (pc.Claim? ==> s' == ClaimStep(cfg, s, t, pc.grab))
            && (pc.Clear? ==> s' == At(s.(victim := false), t, Run(pc.lo, pc.hi)))
            && (pc.Run? ==> pc.lo <= pc.hi && s' == RunStep(cfg, s, t, pc.lo, pc.hi))
            && (pc.MergeLoad? ==> s' == At(s, t, MergeCas(s.ret)))
            && (pc.MergeCas? ==> s' == MergeStep(cfg, s, t, pc.seen, ch.fail))
            && (pc.Report? ==> s' == ReportStep(s, t))
  {
    hide HandsOk, RanOk, Tiles, OwnerOk, PlacesOk, At, RunStep, ClaimStep, SnapStep, MergeStep, ReportStep, EnterLoop;
    assert PcOk(cfg, t, s.th[t]);
  }

  /** The same for the owner's own points. */
  lemma OwnerStepByPoint(cfg: Config, s: State, ch: Choice)
    requires cfg.Sized() && |s.th| > 0
    ensures var pc := s.th[0].pc; var s' := Step(cfg, s, 0, ch);
            && (pc.Idle? ==> s' == At(s.(args := ch.args), 0, StoreRet))
            && (pc.StoreRet? ==> s' == At(if cfg.returning then s.(ret := cfg.init) else s, 0, StoreDone))
            && (pc.StoreDone? ==> s' == At(s.(done := 0), 0, StoreCounter))
            && (pc.StoreCounter? ==> s' == OpenStep(cfg, s))
            && (pc.SetVictim? ==> s' == At(s.(victim := true), 0, Enter))
            && (pc.Waiting? ==> s' == if s.done >= cfg.chunks then At(s, 0, Recheck) else s)
            && (pc.Recheck? ==> s' == At(s, 0, if s.victim then ClearOwn else Collect))
            && (pc.ClearOwn? ==> s' == At(s.(victim := false), 0, Collect))
            && (pc.Collect? ==> s' == At(s.(results := s.results + [s.ret]), 0, Idle))
  {
    hide At, OpenStep, RunStep, ClaimStep, SnapStep, MergeStep, ReportStep, EnterLoop;
  }

  class PurePipeline {
    const cfg: Config

    // shared fields
    var recv_args: Args
    var dequeue_cont_curr_chunk: int
    var active_stage_num_chunks_done: nat
    var deq_pipeline_atomic_ret_v: Value
    var has_active_victim: bool
    var stage_ret_vals: seq<Value>

    // each thread's program counter and locals
    var threads: seq<Thread>

    // history
    ghost var where: seq<Place>
    ghost var claims: seq<Range>
    ghost var given: seq<Args>
    ghost var ran: seq<seq<seq<Args>>>

    ghost function View(): State
      reads this
    {
      State(recv_args, dequeue_cont_curr_chunk, active_stage_num_chunks_done, deq_pipeline_atomic_ret_v,
            has_active_victim, threads, where, claims, given, ran, stage_ret_vals)
    }

    ghost predicate Valid()
      reads this
    {
      Control(cfg, View())
    }

    constructor (cfg: Config, a: Args, v: Value)
      requires cfg.Sized()
      ensures this.cfg == cfg && Valid() && View() == Init(cfg, a, v)
    {
      this.cfg := cfg;
      recv_args, deq_pipeline_atomic_ret_v := a, v;
      active_stage_num_chunks_done := 0;
      dequeue_cont_curr_chunk := cfg.chunks;
      has_active_victim, stage_ret_vals := false, [];
      threads := seq(cfg.threads, _ => Thread(Idle, 0, v, true));
      where := seq(cfg.chunks, _ => Reported);
      claims, given, ran := [], [], [];
      new;
      InitControl(cfg, a, v);
    }

    method MoveTo(t: nat, pc: PC)
      requires t < |threads|
      modifies this`threads
      ensures View() == At(old(View()), t, pc)
    {
      threads := threads[t := threads[t].(pc := pc)];
    }

    /** The owner's actions in Execute: publish the arguments, and keep the result. */
    method Execute(ch: Choice)
      requires Valid() && (threads[0].pc.Idle? || threads[0].pc.Collect?)
      modifies this
      ensures Valid() && View() == Step(cfg, old(View()), 0, ch)
    {
      assert |threads| == cfg.threads > 0;
      StepControl(cfg, View(), 0, ch);
      OwnerStepByPoint(cfg, View(), ch);
      hide Control, Step, At;
      if threads[0].pc.Idle? {
        recv_args := ch.args;
        MoveTo(0, StoreRet);
      } else {
        stage_ret_vals := stage_ret_vals + [deq_pipeline_atomic_ret_v];
        MoveTo(0, Idle);
      }
    }

    /** The owner's next store before it starts to work, the counter's reset last. */
    method PublishWork(ch: Choice)
      requires Valid()
      requires var pc := threads[0].pc; pc.StoreRet? || pc.StoreDone? || pc.StoreCounter? || pc.SetVictim?
      modifies this
      ensures Valid() && View() == Step(cfg, old(View()), 0, ch)
    {
      assert |threads| == cfg.threads > 0;
      StepControl(cfg, View(), 0, ch);
      OwnerStepByPoint(cfg, View(), ch);
      hide Control, Step, At;
      var pc := threads[0].pc;
      if pc.StoreRet? {
        if cfg.returning { deq_pipeline_atomic_ret_v := cfg.init; }
        MoveTo(0, StoreDone);
      } else if pc.StoreDone? {
        active_stage_num_chunks_done := 0;
        MoveTo(0, StoreCounter);
      } else if pc.StoreCounter? {
        dequeue_cont_curr_chunk := cfg.Start();
        where, claims := seq(|where|, _ => Free), [];
        given, ran := given + [recv_args], ran + [seq(|where|, _ => [])];
        MoveTo(0, SetVictim);
      } else {
        has_active_victim := true;
        MoveTo(0, Enter);
      }
    }

    /** The owner's wait for the done counter and its check of the victim pointer. */
    method AwaitHelpers(ch: Choice)
      requires Valid()
      requires var pc := threads[0].pc; pc.Waiting? || pc.Recheck? || pc.ClearOwn?
      modifies this
      ensures Valid() && View() == Step(cfg, old(View()), 0, ch)
    {
      assert |threads| == cfg.threads > 0;
      StepControl(cfg, View(), 0, ch);
      OwnerStepByPoint(cfg, View(), ch);
      hide Control, Step, At;
      var pc := threads[0].pc;
      if pc.Waiting? {
        if active_stage_num_chunks_done >= cfg.chunks { MoveTo(0, Recheck); }
      } else if pc.Recheck? {
        if has_active_victim { MoveTo(0, ClearOwn); } else { MoveTo(0, Collect); }
      } else {
        has_active_victim := false;
        MoveTo(0, Collect);
      }
    }

    /** The owner's next atomic action in StartStealableWorkContinuation, outside the loop. */
    method StartStealableWorkContinuation(ch: Choice)
      requires Valid() && !InLoop(threads[0].pc) && !threads[0].pc.Enter? && !threads[0].pc.Idle? && !threads[0].pc.Collect?
      modifies this
      ensures Valid() && View() == Step(cfg, old(View()), 0, ch)
    {
      assert |threads| == cfg.threads > 0;
      hide Control, Step;
      if threads[0].pc.Waiting? || threads[0].pc.Recheck? || threads[0].pc.ClearOwn? {
        AwaitHelpers(ch);
      } else {
        PublishWork(ch);
      }
    }

    /** Thread t leaves ExecuteDequeueContinuationUntilDone. */
    method LeaveLoop(t: nat)
      requires t < |threads|
      modifies this`threads
      ensures View() == Leave(old(View()), t)
    {
      threads := threads[t := threads[t].(pc := if t == 0 then Waiting else Idle, count := 0)];
    }

    method FinishLoop(t: nat)
      requires t < |threads|
      modifies this`threads
      ensures View() == Finish(cfg, old(View()), t)
    {
      if threads[t].count == 0 {
        LeaveLoop(t);
      } else if cfg.returning {
        MoveTo(t, MergeLoad);
      } else {
        MoveTo(t, Report);
      }
    }

    method ClaimChunks(t: nat, grab: nat)
      requires t < |threads|
      modifies this
      ensures View() == ClaimStep(cfg, old(View()), t, grab)
    {
      ghost var before := View();
      var start_chunk, end_chunk: int;
      if cfg.policy.SingleChunk? {
        start_chunk := dequeue_cont_curr_chunk + 1;
        end_chunk := start_chunk;
        dequeue_cont_curr_chunk := dequeue_cont_curr_chunk + grab;
      } else {
        dequeue_cont_curr_chunk := dequeue_cont_curr_chunk + grab;
        end_chunk := dequeue_cont_curr_chunk - 1;
        start_chunk := end_chunk - grab + 1;
      }
      var last_chunk := cfg.chunks - 1;
      if 0 <= start_chunk <= last_chunk && 0 <= end_chunk {
        if end_chunk > last_chunk { end_chunk := last_chunk; }
        where := Mark(where, start_chunk, end_chunk, Held(t));
        claims := claims + [Range(start_chunk, end_chunk)];
        if end_chunk == last_chunk {
          MoveTo(t, Clear(start_chunk, end_chunk));
        } else {
          MoveTo(t, PC.Run(start_chunk, end_chunk));
        }
      } else {
        FinishLoop(t);
      }
    }

    method RunChunks(t: nat, lo: nat, hi: nat)
      requires t < |threads| && lo <= hi
      modifies this
      ensures View() == RunStep(cfg, old(View()), t, lo, hi)
    {
      var me := threads[t];
      if cfg.returning {
        var this_ret_val := cfg.cont(recv_args, lo, hi);
        me := me.(val := cfg.reducer(this_ret_val, me.val));
      }
      me := me.(count := me.count + (hi - lo + 1));
      threads := threads[t := me];
      where, ran := Mark(where, lo, hi, Ran(t)), Record(ran, lo, hi, recv_args);
      if hi == cfg.chunks - 1 || !me.until {
        FinishLoop(t);
      } else {
        MoveTo(t, LoopHead(cfg));
      }
    }

    method EnterAt(t: nat, until: bool)
      requires t < |threads|
      modifies this`threads
      ensures View() == EnterLoop(cfg, old(View()), t, until)
    {
      if dequeue_cont_curr_chunk >= cfg.chunks {
        LeaveLoop(t);
      } else {
        threads := threads[t := Thread(LoopHead(cfg), 0, cfg.init, until)];
      }
    }

    method LoadSnapshot(t: nat)
      requires cfg.Sized() && t < |threads|
      modifies this`threads
      ensures View() == SnapStep(cfg, old(View()), t)
    {
      var snapshot := dequeue_cont_curr_chunk;
      if snapshot >= cfg.chunks {
        FinishLoop(t);
      } else if snapshot >= 0 {
        MoveTo(t, Claim(Grab(cfg, snapshot, t == 0)));
      }
    }

    method TryMerge(t: nat, curr_shared_val: Value, cas_fails: bool)
      requires t < |threads|
      modifies this`threads, this`deq_pipeline_atomic_ret_v
      ensures View() == MergeStep(cfg, old(View()), t, curr_shared_val, cas_fails)
    {
      if deq_pipeline_atomic_ret_v == curr_shared_val && !cas_fails {
        deq_pipeline_atomic_ret_v := cfg.reducer(threads[t].val, curr_shared_val);
        MoveTo(t, Report);
      } else {
        MoveTo(t, MergeLoad);
      }
    }

    method ReportChunks(t: nat)
      requires t < |threads|
      modifies this
      ensures View() == ReportStep(old(View()), t)
    {
      active_stage_num_chunks_done := active_stage_num_chunks_done + threads[t].count;
      ghost var w := where;
      where := seq(|w|, c requires 0 <= c < |w| => if w[c] == Ran(t) then Reported else w[c]);
      LeaveLoop(t);
    }

    method ClearVictimAt(t: nat, lo: nat, hi: nat)
      requires t < |threads|
      modifies this`threads, this`has_active_victim
      ensures View() == At(old(View()).(victim := false), t, PC.Run(lo, hi))
    {
      has_active_victim := false;
      MoveTo(t, PC.Run(lo, hi));
    }

    /** Thread t's next atomic action in ExecuteDequeueContinuationUntilDone. */
    method ExecuteDequeueContinuationUntilDone(t: nat, ch: Choice)
      requires Valid() && t < cfg.threads
      requires InLoop(threads[t].pc) || (if t == 0 then threads[0].pc.Enter? else threads[t].pc.Idle?)
      modifies this
      ensures Valid() && View() == Step(cfg, old(View()), t, ch)
    {
      StepControl(cfg, View(), t, ch);
      StepByPoint(cfg, View(), t, ch);
      hide Control, Step, At, RunStep, ClaimStep, SnapStep, MergeStep, ReportStep, EnterLoop;
      var pc := threads[t].pc;
      if pc.Idle? {
        EnterAt(t, ch.until);
      } else if pc.Enter? {
        EnterAt(t, true);
      } else if pc.Snap? {
        LoadSnapshot(t);
      } else if pc.Claim? {
        ClaimChunks(t, pc.grab);
      } else if pc.Clear? {
        ClearVictimAt(t, pc.lo, pc.hi);
      } else if pc.Run? {
        RunChunks(t, pc.lo, pc.hi);
      } else if pc.MergeLoad? {
        MoveTo(t, MergeCas(deq_pipeline_atomic_ret_v));
      } else if pc.MergeCas? {
        TryMerge(t, pc.seen, ch.fail);
      } else {
        ReportChunks(t);
      }
    }

    /** Any interleaving, run to its end, is a run of the machine. */
    method RunSchedule(sched: Schedule)
      requires Legal(cfg, sched) && cfg.Sized() && View() == After(cfg, recv_args, deq_pipeline_atomic_ret_v, [])
      modifies this
      ensures Valid()
      ensures View() == After(cfg, old(recv_args), old(deq_pipeline_atomic_ret_v), sched)
    {
      ghost var a, v := recv_args, deq_pipeline_atomic_ret_v;
      InitControl(cfg, a, v);
      var i := 0;
      while i < |sched|
        invariant 0 <= i <= |sched|
        invariant Valid() && View() == After(cfg, a, v, sched[..i])
      {
        var (t, ch) := sched[i];
        assert |threads| == cfg.threads && PcOk(cfg, t, threads[t]);
        if InLoop(threads[t].pc) || threads[t].pc.Enter? || (t > 0 && threads[t].pc.Idle?) {
          ExecuteDequeueContinuationUntilDone(t, ch);
        } else if threads[0].pc.Idle? || threads[0].pc.Collect? {
          Execute(ch);
        } else {
          StartStealableWorkContinuation(ch);
        }
        assert sched[..i + 1][..i] == sched[..i];
        i := i + 1;
      }
      assert sched[..|sched|] == sched;
    }
  }
}
