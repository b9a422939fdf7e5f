/** The locked channel, updated in place; each public method is one critical section. */
module LockedProcessChannelObject {
  import opened Delivery
  import opened Options
  import opened Buffers
  import opened LockedChannel
  import opened LockedChannelRuns

  class ProcessChannel {
    const cfg: Config

    var receiver_ready_for_copy: bool
    var dequeue_completed_recv: bool
    var sender_done_direct_copy_cf: bool
    var num_unreceived_payloads: nat
    var buffered_payloads: seq<Entry>
    var free_buffers: seq<Buf>
    var recv_channel_buf: Buf
    var received_count: nat
    var memory: map<Buf, Option<Payload>>
    var pending_dequeues: nat
    var fault: Fault

    // history
    ghost var sent: seq<Msg>
    ghost var received: seq<Msg>
    ghost var waited_each: bool

    ghost function View(): State
      reads this
    {
      State(receiver_ready_for_copy, dequeue_completed_recv, sender_done_direct_copy_cf, num_unreceived_payloads,
            buffered_payloads, free_buffers, recv_channel_buf, received_count, memory, pending_dequeues, fault,
            sent, received, waited_each)
    }

    ghost predicate Valid()
      reads this
    {
      Inv(cfg, View())
    }

    constructor (cfg: Config)
      ensures this.cfg == cfg && Valid() && View() == Init(cfg)
    {
      this.cfg := cfg;
      receiver_ready_for_copy, dequeue_completed_recv, sender_done_direct_copy_cf := false, false, false;
      num_unreceived_payloads, buffered_payloads, free_buffers := 0, [], [];
      recv_channel_buf, received_count := cfg.home, 0;
      memory := map[cfg.home := None];
      pending_dequeues, fault := 0, NoFault;
      sent, received, waited_each := [], [], true;
      new;
      InitInv(cfg);
    }

    /** The pool's top, or what malloc returns. */
    method GetFreeBuf(malloc: Buf) returns (new_buf: Buf)
      modifies this`free_buffers
      ensures old(free_buffers) == [] ==> new_buf == malloc && free_buffers == []
      ensures old(free_buffers) != [] ==> old(free_buffers) == free_buffers + [new_buf]
    {
      if |free_buffers| == 0 {
        new_buf := malloc;
      } else {
        new_buf := free_buffers[|free_buffers| - 1];
        free_buffers := free_buffers[..|free_buffers| - 1];
      }
    }

    method ReturnFreeBuf(buf: Buf)
      modifies this`free_buffers
      ensures free_buffers == old(free_buffers) + [buf]
    {
      free_buffers := free_buffers + [buf];
    }

    /** `malloc` is what malloc would return; a live address stands for a call put off. */
    method EnqueueImpl(m: Msg, malloc: Buf)
      requires Valid() && fault.NoFault?
      modifies this
      ensures Valid() && View() == EnqueueStep(cfg, old(View()), m, malloc)
    {
      StepInv(cfg, View(), Enqueue(m, malloc));
      hide Inv;
      if receiver_ready_for_copy { CopyDirectly(m, malloc); } else { BufferPayload(m, malloc); }
    }

    method CopyDirectly(m: Msg, ghost malloc: Buf)
      requires receiver_ready_for_copy
      modifies this
      ensures View() == EnqueueStep(cfg, old(View()), m, malloc)
    {
      if num_unreceived_payloads > 0 {
        fault := QueueNotEmpty;
      } else {
        received_count := m.count;
        memory := memory[cfg.home := Some(m.payload)];
        receiver_ready_for_copy := false;
        sender_done_direct_copy_cf := true;
        sent := sent + [m];
      }
    }

    method BufferPayload(m: Msg, malloc: Buf)
      requires !receiver_ready_for_copy
      modifies this
      ensures View() == EnqueueStep(cfg, old(View()), m, malloc)
    {
      if num_unreceived_payloads >= cfg.capacity {
        fault := QueueFull;
      } else if free_buffers != [] || malloc !in memory {
        var buffered_payload := GetFreeBuf(malloc);
        memory := memory[buffered_payload := Some(m.payload)];
        buffered_payloads := buffered_payloads + [Entry(m.count, buffered_payload)];
        num_unreceived_payloads := num_unreceived_payloads + 1;
        sent := sent + [m];
      }
    }

    method Dequeue() returns (completed: bool)
      requires Valid() && fault.NoFault?
      modifies this
      ensures Valid() && View() == DequeueStep(cfg, old(View()))
      ensures completed == dequeue_completed_recv && fault.NoFault?
    {
      StepInv(cfg, View(), LockedChannel.Dequeue);
      DequeueSucceeds(cfg, View());
      hide Inv, DequeueStep;
      TakeNext();
      completed := dequeue_completed_recv;
    }

    method TakeNext()
      requires num_unreceived_payloads > 0 ==> buffered_payloads != []
      modifies this
      ensures View() == DequeueStep(cfg, old(View()))
    {
      GiveBackLast();
      TakeFrontOrWait();
    }

    method GiveBackLast()
      modifies this`waited_each, this`pending_dequeues, this`free_buffers
      ensures View() == GiveBack(cfg, old(View()))
    {
      waited_each := waited_each && pending_dequeues == 0;
      pending_dequeues := pending_dequeues + 1;
      if recv_channel_buf != cfg.home { ReturnFreeBuf(recv_channel_buf); }
    }

    method TakeFrontOrWait()
      requires num_unreceived_payloads > 0 ==> buffered_payloads != []
      modifies this
      ensures View() == Take(cfg, old(View()))
    {
      if num_unreceived_payloads == 0 {
        sender_done_direct_copy_cf := false;
        receiver_ready_for_copy, dequeue_completed_recv := true, false;
        recv_channel_buf := cfg.home;
      } else {
        var sqe := buffered_payloads[0];
        if recv_channel_buf == sqe.buf {
          fault := SameBuffer;
        } else {
          buffered_payloads := buffered_payloads[1..];
          num_unreceived_payloads := num_unreceived_payloads - 1;
          received_count, recv_channel_buf := sqe.count, sqe.buf;
          dequeue_completed_recv := true;
        }
      }
    }

    /** `done` when the message is there; otherwise the caller goes on waiting. */
    method Wait() returns (done: bool)
      requires Valid() && fault.NoFault?
      modifies this`pending_dequeues, this`received
      ensures Valid() && View() == WaitStep(old(View()))
      ensures done <==> dequeue_completed_recv || sender_done_direct_copy_cf
    {
      StepInv(cfg, View(), LockedChannel.Wait);
      hide Inv;
      done := dequeue_completed_recv || sender_done_direct_copy_cf;
      if done && pending_dequeues > 0 {
        pending_dequeues := pending_dequeues - 1;
        if recv_channel_buf in memory && memory[recv_channel_buf].Some? {
          received := received + [Msg(received_count, memory[recv_channel_buf].value)];
        }
      }
    }

    /** Any order of critical sections is a run of the machine. */
    method RunSchedule(sched: Schedule)
      requires Valid() && View() == Init(cfg)
      modifies this
      ensures Valid() && View() == After(cfg, sched)
    {
      Nothing(cfg);
      hide After, Inv, EnqueueStep, DequeueStep, WaitStep;
      var i := 0;
      while i < |sched|
        invariant 0 <= i <= |sched|
        invariant Valid() && View() == After(cfg, sched[..i])
      {
        Next(cfg, sched, i);
        if fault.NoFault? {
          match sched[i]
          case Enqueue(m, malloc) => EnqueueImpl(m, malloc);
          case Dequeue => var _ := Dequeue();
          case Wait => var _ := Wait();
        }
        i := i + 1;
      }
      assert sched[..|sched|] == sched;
    }
  }

  lemma DequeueSucceeds(cfg: Config, s: State)
    requires Inv(cfg, s) && s.fault == NoFault
    ensures s.unreceived > 0 ==> s.queue != []
    ensures DequeueStep(cfg, s).fault == NoFault && Step(cfg, s, LockedChannel.Dequeue) == DequeueStep(cfg, s)
  {
    DequeueSafe(cfg, s);
  }
}
