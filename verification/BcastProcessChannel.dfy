/** The broadcast channel's direct-copy state, updated in place, one atomic action a call. */
module BcastProcessChannelObject {
  import opened DirectBcast
  import opened DirectBcastRuns

  class BcastProcessChannel {
    const num_threads: nat
    const done_consuming_flags: array<nat>

    var read_only_process_leader_buf: nat
    var bcast_data_ready_seq: nat
    var done_consuming_flag: nat
    var threads: seq<Thread>

    // history
    ghost var ready: nat

    ghost function View(): State
      reads this, done_consuming_flags
    {
      State(read_only_process_leader_buf, bcast_data_ready_seq, done_consuming_flag, done_consuming_flags[..], threads, ready)
    }

    ghost predicate Valid()
      reads this, done_consuming_flags
    {
      Inv(num_threads, View())
    }

    constructor (n: nat)
      requires n >= 2
      ensures num_threads == n && Valid() && View() == Init(n) && fresh(done_consuming_flags)
    {
      num_threads := n;
      done_consuming_flags := new nat[n - 1](_ => 0);
      read_only_process_leader_buf, bcast_data_ready_seq, done_consuming_flag := 0, SeqModulus - 1, 1;
      threads, ready := seq(n, _ => Thread(Out, 0, 0, [])), 0;
      new;
      assert done_consuming_flags[..] == seq(n - 1, _ => 0);
      InitInv(n);
    }

    method MoveTo(t: nat, pc: PC)
      requires t < |threads|
      modifies this`threads
      ensures View() == At(old(View()), t, pc)
    {
      threads := threads[t := threads[t].(pc := pc)];
    }

    method LeaderDirectCopyBcast()
      requires Valid()
      modifies this
      ensures Valid() && View() == LeaderStep(num_threads, old(View()))
    {
      LeaderKeeps(num_threads, View());
      LeaderHere(num_threads, View());
      hide Inv;
      assert Shape(num_threads, View());
      match threads[0].pc
      case Out => threads := threads[0 := Enter(threads[0], StoreBuf)];
      case StoreBuf =>
        read_only_process_leader_buf := threads[0].calls;
        MoveTo(0, StoreSeq);
      case StoreSeq =>
        bcast_data_ready_seq, ready := threads[0].seqNo, threads[0].calls;
        MoveTo(0, WaitFlag(0));
      case WaitFlag(i) =>
        if i >= num_threads - 1 {
          MoveTo(0, FlipOwn);
        } else if done_consuming_flags[i] == done_consuming_flag {
          MoveTo(0, WaitFlag(i + 1));
        }
      case FlipOwn =>
        done_consuming_flag := Xor1(done_consuming_flag);
        MoveTo(0, Out);
    }

    method NonLeaderDirectCopyBcast(t: nat)
      requires Valid() && 0 < t < num_threads
      modifies this`threads, done_consuming_flags
      ensures Valid() && View() == FollowerStep(num_threads, old(View()), t)
    {
      FollowerKeeps(num_threads, View(), t);
      FollowerHere(num_threads, View(), t);
      hide Inv;
      var me := threads[t];
      match me.pc
      case Out => threads := threads[t := Enter(me, WaitSeq)];
      case WaitSeq => if bcast_data_ready_seq == me.seqNo { MoveTo(t, Copy); }
      case Copy => MoveTo(t, Copying(read_only_process_leader_buf));
      case Copying(from) => threads := threads[t := me.(pc := Toggle, got := me.got + [from])];
      case Toggle =>
        done_consuming_flags[t - 1] := Xor1(done_consuming_flags[t - 1]);
        MoveTo(t, Out);
    }

    /** Any interleaving of the threads is a run of the machine. */
    method RunSchedule(sched: Schedule)
      requires Valid() && num_threads >= 2 && Legal(num_threads, sched) && View() == Init(num_threads)
      modifies this, done_consuming_flags
      ensures Valid() && View() == After(num_threads, sched)
    {
      Nothing(num_threads);
      hide After, Inv, LeaderStep, FollowerStep, Init;
      var i := 0;
      while i < |sched|
        invariant 0 <= i <= |sched|
        invariant Valid() && View() == After(num_threads, sched[..i])
      {
        Next(num_threads, sched, i);
        if sched[i] == 0 { LeaderDirectCopyBcast(); } else { NonLeaderDirectCopyBcast(sched[i]); }
        i := i + 1;
      }
      assert sched[..|sched|] == sched;
    }
  }
}
