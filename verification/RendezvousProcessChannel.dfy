/** The rendezvous channel over its two queues, updated in place. */
module RendezvousProcessChannelObject {
  import opened Delivery
  import opened RendezvousChannel
  import opened RendezvousChannelRuns
  import opened ProducerConsumerQueues

  class ProcessChannel {
    const cfg: Config
    const dequeue_requests_: ProducerConsumerQueue<Buf>
    const deq_reqs_payload_counts_: ProducerConsumerQueue<nat>

    var sender: SPc
    var receiver: RPc
    var memory: map<Buf, Msg>
    var fault: Fault
    var num_dequeues: nat
    var num_completed_dequeues: nat

    // history
    ghost var sent: seq<Msg>
    ghost var pushed: nat
    ghost var dests: seq<Buf>
    ghost var got: seq<nat>

    ghost predicate QueuesValid()
      reads this, dequeue_requests_, deq_reqs_payload_counts_
    {
      && dequeue_requests_.Valid() && deq_reqs_payload_counts_.Valid()
      && dequeue_requests_.size_ == deq_reqs_payload_counts_.size_ == cfg.maxBufferedMsgs + 1
      && dequeue_requests_.records_ != deq_reqs_payload_counts_.records_
    }

    ghost function Repr(): set<object>
      reads this
    {
      {this, dequeue_requests_, deq_reqs_payload_counts_, dequeue_requests_.records_, deq_reqs_payload_counts_.records_}
    }

    ghost function View(): State
      requires QueuesValid()
      reads this, dequeue_requests_, deq_reqs_payload_counts_, Repr()
    {
      State(dequeue_requests_.Contents(), deq_reqs_payload_counts_.Contents(), sender, receiver, memory, fault,
            sent, pushed, dests, got)
    }

    ghost predicate Valid()
      reads Repr()
    {
      QueuesValid() && num_dequeues == |dests| && num_completed_dequeues == |got| && Inv(cfg, View())
    }

    constructor (cfg: Config)
      requires cfg.Ok()
      ensures this.cfg == cfg && Valid() && View() == Init() && fresh(Repr())
    {
      this.cfg := cfg;
      dequeue_requests_ := new ProducerConsumerQueue<Buf>(cfg.maxBufferedMsgs + 1, 0);
      deq_reqs_payload_counts_ := new ProducerConsumerQueue<nat>(cfg.maxBufferedMsgs + 1, 0);
      sender, receiver, memory, fault := SIdle, RIdle, map[], NoFault;
      num_dequeues, num_completed_dequeues := 0, 0;
      sent, pushed, dests, got := [], 0, [], [];
      new;
      assert View() == After(cfg, []);
    }

    /** EnqueueNonblockingTryToSendThis, up to the copy. */
    method TryToSend(m: Msg, more: bool)
      requires QueuesValid()
      modifies this`sender, dequeue_requests_
      ensures QueuesValid() && View() == TakeRequest(old(View()), m, more)
    {
      var deq_req_avail, dest := dequeue_requests_.Read();
      sender := if deq_req_avail then SCopy(m, dest, more) else SPend(m);
    }

    method Enqueue(m: Msg)
      requires Valid() && sender.SIdle? && fault.NoFault?
      modifies Repr()
      ensures Valid() && View() == SenderStep(cfg, old(View()), RendezvousChannel.Enqueue(m))
    {
      SenderKeeps(cfg, View(), RendezvousChannel.Enqueue(m));
      ghost var s0 := View();
      TryToSend(m, true);
      sent := sent + [m];
      assert View() == TakeRequest(s0, m, true).(sent := s0.sent + [m]);
    }

    method EnqueueBlocking(m: Msg)
      requires Valid() && sender.SIdle? && fault.NoFault?
      modifies this
      ensures Valid() && View() == SenderStep(cfg, old(View()), RendezvousChannel.EnqueueBlocking(m))
    {
      SenderKeeps(cfg, View(), RendezvousChannel.EnqueueBlocking(m));
      sent, sender := sent + [m], SPend(m);
    }

    /** The sender's next action after Enqueue; `done` ends EnqueueWait, EnqueueTest or EnqueueBlocking. */
    method EnqueueWait(ch: Choice) returns (done: bool)
      requires Valid() && !sender.SIdle? && fault.NoFault?
      modifies Repr()
      ensures Valid() && View() == SenderStep(cfg, old(View()), ch)
      ensures done <==> sender.SIdle?
    {
      SenderKeeps(cfg, View(), ch);
      if sender.SPend? {
        TryToSend(sender.m, false);
      } else if sender.SDone? {
        sender := SIdle;
      } else {
        FinalizeUnbufferedSend(ch);
      }
      done := sender.SIdle?;
    }

    /** The length check and the copy, or the write of the count and its check. */
    method FinalizeUnbufferedSend(ch: Choice)
      requires Valid() && (sender.SCopy? || sender.SCount?) && fault.NoFault?
      modifies this`sender, this`memory, this`fault, this`pushed, deq_reqs_payload_counts_, deq_reqs_payload_counts_.records_
      ensures QueuesValid() && View() == SenderStep(cfg, old(View()), ch)
    {
      hide Inv;
      if sender.SCopy? {
        if sender.m.count > cfg.maxCount {
          fault := TooLong;
        } else {
          memory := memory[sender.dest := sender.m];
          sender := SCount(sender.m, sender.more);
        }
      } else {
        var write_succeeded := deq_reqs_payload_counts_.Write(sender.m.count);
        if write_succeeded {
          pushed := pushed + 1;
          sender := if sender.more then SDone else SIdle;
        } else {
          fault := CountsFull;
        }
      }
    }

    method Dequeue(user_buf: Buf)
      requires Valid() && receiver.RIdle? && fault.NoFault?
      modifies this, dequeue_requests_, dequeue_requests_.records_
      ensures Valid() && View() == ReceiverStep(cfg, old(View()), RendezvousChannel.Dequeue(user_buf))
    {
      ReceiverKeeps(cfg, View(), RendezvousChannel.Dequeue(user_buf));
      PostRequest(user_buf);
    }

    method PostRequest(user_buf: Buf)
      requires QueuesValid() && receiver.RIdle? && num_dequeues == |dests|
      modifies this`dests, this`num_dequeues, this`fault, dequeue_requests_, dequeue_requests_.records_
      ensures QueuesValid() && num_dequeues == |dests|
      ensures View() == ReceiverStep(cfg, old(View()), RendezvousChannel.Dequeue(user_buf))
    {
      var write_success := dequeue_requests_.Write(user_buf);
      if write_success {
        dests := dests + [user_buf];
        num_dequeues := num_dequeues + 1;
      } else {
        fault := RequestsFull;
      }
    }

    method DequeueWait(actually_blocking_wait: bool)
      requires Valid() && receiver.RIdle? && fault.NoFault? && num_completed_dequeues < num_dequeues
      modifies this
      ensures Valid() && View() == ReceiverStep(cfg, old(View()), Wait(actually_blocking_wait))
    {
      ReceiverKeeps(cfg, View(), Wait(actually_blocking_wait));
      receiver := RWait(actually_blocking_wait);
    }

    /** The wait's next read of the count queue; `received` ends the wait with a message. */
    method DequeueWaitBlockingThisOnly(ch: Choice) returns (received: bool, payload_count: nat)
      requires Valid() && receiver.RWait? && fault.NoFault?
      modifies this, deq_reqs_payload_counts_
      ensures Valid() && View() == ReceiverStep(cfg, old(View()), ch)
      ensures received ==> |old(got)| < |sent| && payload_count == sent[|old(got)|].count
      ensures got == if received then old(got) + [payload_count] else old(got)
    {
      ReceiverKeeps(cfg, View(), ch);
      NextCount(cfg, View());
      hide Inv;
      received, payload_count := TakeCount(ch);
    }

    method TakeCount(ghost ch: Choice) returns (received: bool, payload_count: nat)
      requires QueuesValid() && receiver.RWait? && fault.NoFault? && num_completed_dequeues == |got|
      modifies this`got, this`num_completed_dequeues, this`receiver, this`fault, deq_reqs_payload_counts_
      ensures QueuesValid() && View() == ReceiverStep(cfg, old(View()), ch) && num_completed_dequeues == |got|
      ensures received <==> old(deq_reqs_payload_counts_.Contents()) != []
      ensures received ==> payload_count == old(deq_reqs_payload_counts_.Contents())[0]
      ensures got == if received then old(got) + [payload_count] else old(got)
    {
      received, payload_count := deq_reqs_payload_counts_.Read();
      if received {
        got, num_completed_dequeues, receiver := got + [payload_count], num_completed_dequeues + 1, RIdle;
        if payload_count == 0 { fault := ZeroCount; }
      } else if !receiver.blocking {
        receiver := RIdle;
      }
    }

    method SenderAction(ch: Choice)
      requires Valid() && fault.NoFault?
      modifies Repr()
      ensures Valid() && View() == SenderStep(cfg, old(View()), ch)
    {
      if !sender.SIdle? {
        var _ := EnqueueWait(ch);
      } else if ch.Enqueue? {
        Enqueue(ch.m);
      } else if ch.EnqueueBlocking? {
        EnqueueBlocking(ch.m);
      }
    }

    method ReceiverAction(ch: Choice)
      requires Valid() && fault.NoFault?
      modifies Repr()
      ensures Valid() && View() == ReceiverStep(cfg, old(View()), ch)
    {
      if receiver.RWait? {
        var _, _ := DequeueWaitBlockingThisOnly(ch);
      } else if ch.Dequeue? {
        Dequeue(ch.b);
      } else if ch.Wait? && num_completed_dequeues < num_dequeues {
        DequeueWait(ch.blocking);
      }
    }

    /** Any interleaving of the two parties' calls is a run of the machine. */
    method RunSchedule(sched: Schedule)
      requires Valid() && View() == Init()
      modifies Repr()
      ensures Valid() && View() == After(cfg, sched)
    {
      Nothing(cfg);
      hide After, Inv, SenderStep, ReceiverStep;
      var i := 0;
      while i < |sched|
        invariant 0 <= i <= |sched|
        invariant Valid() && View() == After(cfg, sched[..i])
      {
        Next(cfg, sched, i);
        var (sends, ch) := sched[i];
        if fault.NoFault? {
          if sends { SenderAction(ch); } else { ReceiverAction(ch); }
        }
        i := i + 1;
      }
      assert sched[..|sched|] == sched;
    }
  }

  /** The front count is the next message's. */
  lemma NextCount(cfg: Config, s: State)
    requires Inv(cfg, s)
    ensures s.counts != [] ==> |s.got| < |s.sent| && s.counts[0] == s.sent[|s.got|].count
  {
    if s.counts != [] { assert s.counts[0] == s.sent[|s.got| + 0].count; }
  }
}
