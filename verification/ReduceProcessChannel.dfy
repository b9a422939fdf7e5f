/**
  The reduce channel shared by a process's threads, updated in place.  Each method is
  one source function advanced by one atomic action of the calling thread.
 */
module ReduceProcessChannelObject {
  import opened Options
  import opened ReduceRounds
  import opened ReduceRoundsSafety
  import opened ReduceRoundsSteps
  import opened ReduceRoundsRuns

  class ReduceProcessChannel {
    const cfg: Config

    var channel_ready_for_use: bool
    var num_threads_done: nat
    var num_non_leaders_totally_done: nat
    var process_leader_ticket_num: nat
    var process_reduce_buf: seq<seq<Src>>

    // the bound ReduceChannels' atomics, by thread
    var bufs: seq<Option<nat>>
    var nums_consumed: seq<nat>

    // each thread's program counter and locals
    var threads: seq<Thread>

    // history
    ghost var round: nat
    ghost var leaders: seq<nat>
    ghost var published: seq<seq<seq<Src>>>

    ghost function View(): State
      reads this
    {
      State(channel_ready_for_use, num_threads_done, num_non_leaders_totally_done, process_leader_ticket_num,
            bufs, nums_consumed, process_reduce_buf, threads, round, leaders, published)
    }

    ghost predicate Valid()
      reads this
    {
      Inv(cfg, View()) && Reading(View())
    }

    constructor (cfg: Config)
      requires cfg.Ok()
      ensures this.cfg == cfg && Valid() && View() == Init(cfg)
    {
      this.cfg := cfg;
      channel_ready_for_use := true;
      num_threads_done, num_non_leaders_totally_done, process_leader_ticket_num := 0, 0, 0;
      process_reduce_buf := seq(cfg.threads, _ => []);
      bufs, nums_consumed := seq(cfg.threads, _ => None), seq(cfg.threads, _ => 0);
      threads := seq(cfg.threads, _ => Thread(Out, {}, 0, true));
      round, leaders, published := 0, [], [];
      new;
      InitInv(cfg);
    }

    method MoveTo(t: nat, pc: PC)
      requires t < |threads|
      modifies this`threads
      ensures View() == At(old(View()), t, pc)
    {
      threads := threads[t := threads[t].(pc := pc)];
    }

    /** The end of ReduceBlocking. */
    method ReturnFromReduce(t: nat)
      requires t < |threads|
      modifies this`threads
      ensures View() == Return(old(View()), t)
    {
      threads := threads[t := Thread(Out, {}, threads[t].ticket + 1, !threads[t].sense)];
    }

    /** StoreBuf, then the wait for the previous use of the channel. */
    method Reduce(t: nat)
      requires Shape(cfg, View()) && t < cfg.threads && (threads[t].pc.Out? || threads[t].pc.WaitReady?)
      modifies this
      ensures View() == EnterStep(cfg, old(View()), t)
    {
      if threads[t].pc.Out? {
        bufs := bufs[t := Some(threads[t].ticket)];
        MoveTo(t, WaitReady);
      } else if channel_ready_for_use == threads[t].sense {
        if t < cfg.computing { MoveTo(t, CopyOwn); } else { MoveTo(t, ChunkDone); }
      }
    }

    method MarkDoneConsumption(t: nat, i: nat)
      requires Shape(cfg, View()) && t < cfg.threads && i < cfg.threads
      modifies this
      ensures var me := old(threads[t]);
              View() == old(View()).(consumed := old(nums_consumed)[i := old(nums_consumed)[i] + 1],
                                     th := old(threads)[t := me.(pc := Scan, done := me.done + {i})])
    {
      nums_consumed := nums_consumed[i := nums_consumed[i] + 1];
      threads := threads[t := threads[t].(pc := Scan, done := threads[t].done + {i})];
    }

    method ReduceMyChunks(t: nat, j: nat)
      requires Shape(cfg, View()) && t < cfg.threads && Working(threads[t].pc)
      requires threads[t].pc.MarkOwn? ==> threads[t].done == {}
      requires threads[t].pc.Mark? ==> threads[t].pc.j < cfg.threads
      modifies this
      ensures View() == WorkStep(cfg, old(View()), t, j)
    {
      hide AllIn;
      match threads[t].pc
      case CopyOwn =>
        process_reduce_buf := process_reduce_buf[t := [Src(t, threads[t].ticket)]];
        MoveTo(t, MarkOwn);
      case MarkOwn =>
        assert threads[t].done + {t} == {t};
        MarkDoneConsumption(t, t);
      case Scan =>
        if AllIn(cfg.threads, threads[t].done) {
          MoveTo(t, ChunkDone);
        } else if j < cfg.threads && j !in threads[t].done && bufs[j].Some? {
          MoveTo(t, Fold(j, bufs[j].value));
        }
      case Fold(i, b) =>
        process_reduce_buf := process_reduce_buf[t := process_reduce_buf[t] + [Src(i, b)]];
        MoveTo(t, Mark(i));
      case Mark(i) =>
        MarkDoneConsumption(t, i);
      case ChunkDone =>
        num_threads_done := num_threads_done + 1;
        MoveTo(t, Elect);
    }

    method ElectProcessLeader(t: nat)
      requires Shape(cfg, View()) && t < cfg.threads && (threads[t].pc.Elect? || threads[t].pc.TryCas?)
      modifies this
      ensures View() == ElectStep(cfg, old(View()), t)
    {
      var ticket := threads[t].ticket;
      if threads[t].pc.TryCas? {
        if process_leader_ticket_num == ticket {
          process_leader_ticket_num := process_leader_ticket_num + 1;
          leaders := leaders + [t];
          MoveTo(t, LWaitDone);
        } else {
          MoveTo(t, NWait);
        }
      } else {
        match cfg.leadership
        case Root(r) => if t == r { MoveTo(t, LWaitDone); } else { MoveTo(t, NWait); }
        case Ticket => if ticket == process_leader_ticket_num { MoveTo(t, TryCas); } else { MoveTo(t, NWait); }
      }
    }

    /** From WaitForProcessReductionsToComplete to ResetLeaderChannel. */
    method LeaderFinalization(t: nat)
      requires Shape(cfg, View()) && t < cfg.threads && Leading(threads[t].pc) && !Resetting(threads[t].pc)
      modifies this
      ensures View() == LeaderStep(cfg, old(View()), t)
    {
      match threads[t].pc
      case LWaitDone =>
        if num_threads_done >= cfg.threads { MoveTo(t, LPublish); }
      case LPublish =>
        published := published + [process_reduce_buf];
        MoveTo(t, LWaitOthers);
      case LWaitOthers =>
        if num_non_leaders_totally_done >= cfg.threads - 1 { MoveTo(t, LConsumed); }
      case LConsumed =>
        nums_consumed := nums_consumed[t := 0];
        MoveTo(t, LClear);
      case LClear =>
        bufs := bufs[t := None];
        MoveTo(t, LInit);
    }

    method ResetChannelForReuse(t: nat)
      requires Shape(cfg, View()) && t < cfg.threads && Resetting(threads[t].pc)
      modifies this
      ensures View() == LeaderStep(cfg, old(View()), t)
    {
      match threads[t].pc
      case LInit =>
        process_reduce_buf := seq(cfg.threads, _ => []);
        MoveTo(t, LDone);
      case LDone =>
        num_threads_done := 0;
        MoveTo(t, LOthers);
      case LOthers =>
        num_non_leaders_totally_done := 0;
        MoveTo(t, LFlip);
      case LFlip =>
        channel_ready_for_use := !channel_ready_for_use;
        round := round + 1;
        ReturnFromReduce(t);
    }

    method NonLeaderFinalization(t: nat)
      requires Shape(cfg, View()) && t < cfg.threads && Trailing(threads[t].pc)
      modifies this
      ensures View() == FollowerStep(cfg, old(View()), t)
    {
      match threads[t].pc
      case NWait =>
        if nums_consumed[t] >= cfg.computing { MoveTo(t, NClear); }
      case NClear =>
        bufs := bufs[t := None];
        MoveTo(t, NConsumed);
      case NConsumed =>
        nums_consumed := nums_consumed[t := 0];
        MoveTo(t, NInc);
      case NInc =>
        num_non_leaders_totally_done := num_non_leaders_totally_done + 1;
        ReturnFromReduce(t);
    }

    /** Thread t's next atomic action in ReduceBlocking. */
    method ReduceBlocking(t: nat, j: nat)
      requires Valid() && t < cfg.threads
      modifies this
      ensures Valid() && View() == Step(cfg, old(View()), t, j)
    {
      hide Inv, WorkStep, LeaderStep, FollowerStep, ElectStep, EnterStep, Folded, Exactly, Marks;
      ShapeOf(cfg, View());
      Here(cfg, View(), t);
      StepInv(cfg, View(), t, j);
      StepReading(cfg, View(), t, j);
      var pc := threads[t].pc;
      if pc.Out? || pc.WaitReady? {
        Reduce(t);
      } else if pc.Elect? || pc.TryCas? {
        ElectProcessLeader(t);
      } else if Resetting(pc) {
        ResetChannelForReuse(t);
      } else if Leading(pc) {
        LeaderFinalization(t);
      } else if Trailing(pc) {
        NonLeaderFinalization(t);
      } else {
        ReduceMyChunks(t, j);
      }
    }

    /** Any interleaving of calls is a run of the machine. */
    method RunSchedule(sched: Schedule)
      requires cfg.Ok() && Legal(cfg, sched) && View() == Init(cfg)
      modifies this
      ensures Valid() && View() == After(cfg, sched)
    {
      hide Inv, Step;
      InitInv(cfg);
      assert Reading(Init(cfg));
      var i := 0;
      while i < |sched|
        invariant 0 <= i <= |sched|
        invariant Valid() && View() == After(cfg, sched[..i])
      {
        assert sched[..i + 1][..i] == sched[..i];
        var (t, j) := sched[i];
        ReduceBlocking(t, j);
        i := i + 1;
      }
      assert sched[..|sched|] == sched;
    }
  }

  predicate Working(pc: PC) {
    pc.CopyOwn? || pc.MarkOwn? || pc.Scan? || pc.Fold? || pc.Mark? || pc.ChunkDone?
  }

  predicate Resetting(pc: PC) { pc.LInit? || pc.LDone? || pc.LOthers? || pc.LFlip? }
}
