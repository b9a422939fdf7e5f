/** The recycling channel over its two queues, updated in place. */
module RecyclingProcessChannelObject {
  import opened Delivery
  import opened Options
  import opened Buffers
  import opened RecyclingChannel
  import opened RecyclingChannelRuns
  import opened ProducerConsumerQueues

  class ProcessChannel {
    const cfg: Config
    const buffered_payloads_: ProducerConsumerQueue<Entry>
    const free_buffers_: ProducerConsumerQueue<Buf>

    var sender: SPc
    var receiver: RPc
    var recv_channel_buf: Option<Buf>
    var received_count: nat
    var memory: map<Buf, Option<Payload>>

    // history
    ghost var sent: seq<Msg>
    ghost var received: seq<Msg>

    ghost predicate QueuesValid()
      reads this, buffered_payloads_, free_buffers_
    {
      && buffered_payloads_.Valid() && free_buffers_.Valid()
      && buffered_payloads_.size_ == free_buffers_.size_ == cfg.capacity + 1
      && buffered_payloads_.records_ as object != free_buffers_.records_
    }

    ghost function Repr(): set<object>
      reads this
    {
      {this, buffered_payloads_, free_buffers_, buffered_payloads_.records_, free_buffers_.records_}
    }

    ghost function View(): State
      requires QueuesValid()
      reads this, buffered_payloads_, free_buffers_, Repr()
    {
      State(buffered_payloads_.Contents(), free_buffers_.Contents(), sender, receiver, recv_channel_buf, received_count,
            memory, false, sent, received)
    }

    ghost predicate Valid()
      reads this, buffered_payloads_, free_buffers_, Repr()
    {
      QueuesValid() && Inv(cfg, View())
    }

    constructor (cfg: Config)
      requires cfg.capacity >= 1
      ensures this.cfg == cfg && Valid() && View() == Init() && fresh(Repr())
    {
      this.cfg := cfg;
      buffered_payloads_ := new ProducerConsumerQueue<Entry>(cfg.capacity + 1, Entry(0, 0));
      free_buffers_ := new ProducerConsumerQueue<Buf>(cfg.capacity + 1, 0);
      sender, receiver, recv_channel_buf, received_count, memory := SIdle, RIdle, None, 0, map[];
      sent, received := [], [];
      new;
      assert View() == After(cfg, []);
    }

    /** EnqueueImpl's next action; `m` is the message of a new call, `fresh_buf` what malloc would return. */
    method EnqueueImpl(ch: Choice)
      requires Valid()
      modifies Repr()
      ensures Valid() && View() == SenderStep(cfg, old(View()), ch)
    {
      StepInv(cfg, View(), true, ch);
      hide Inv;
      if sender.SIdle? || sender.SFill? {
        BeginOrCopy(ch);
      } else if sender.SGet? {
        GetFreeBuf(ch);
      } else {
        WritePayload(ch);
      }
    }

    /** A new call keeps its message; a filled buffer gets it. */
    method BeginOrCopy(ch: Choice)
      requires QueuesValid() && (sender.SIdle? || sender.SFill?)
      modifies this`sender, this`memory, this`sent
      ensures QueuesValid() && View() == SenderStep(cfg, old(View()), ch)
    {
      if sender.SFill? {
        memory := memory[sender.b := Some(sender.m.payload)];
        sender := SWrite(sender.m, sender.b);
      } else if ch.Enqueue? {
        sent, sender := sent + [ch.m], SGet(ch.m);
      }
    }

    method GetFreeBuf(ch: Choice)
      requires QueuesValid() && sender.SGet?
      modifies this`sender, this`memory, free_buffers_
      ensures QueuesValid() && View() == GetStep(cfg, old(View()), old(sender).m, ch)
    {
      var m := sender.m;
      var found, new_buf := false, 0;
      if cfg.freeList { found, new_buf := free_buffers_.Read(); }
      if found {
        sender := SFill(m, new_buf);
      } else if ch.Malloc? && ch.b !in memory {
        memory := memory[ch.b := None];
        sender := SFill(m, ch.b);
      }
    }

    method WritePayload(ch: Choice)
      requires QueuesValid() && sender.SWrite?
      modifies this`sender, buffered_payloads_, buffered_payloads_.records_
      ensures QueuesValid() && View() == SenderStep(cfg, old(View()), ch)
    {
      var written := buffered_payloads_.Write(Entry(sender.m.count, sender.b));
      if written { sender := SIdle; }
    }

    /** Dequeue's next action. */
    method Dequeue()
      requires Valid()
      modifies Repr()
      ensures Valid() && View() == ReceiverStep(cfg, old(View()))
    {
      StepInv(cfg, View(), false, Go);
      if receiver.RIdle? {
        ReturnFreeBuf();
      } else if receiver.RFront? {
        FrontKeeps(cfg, View());
        TakeFront();
      } else {
        buffered_payloads_.PopFront();
        receiver := RIdle;
      }
    }

    /** Back to the free list, or to free() when that is full. */
    method ReturnFreeBuf()
      requires Valid() && receiver.RIdle?
      modifies this`receiver, this`memory, free_buffers_, free_buffers_.records_
      ensures QueuesValid() && View() == ReturnStep(cfg, old(View()))
    {
      if recv_channel_buf.Some? {
        var buf_to_recycle := recv_channel_buf.value;
        LiveBuf(cfg, View());
        hide Inv;
        var kept := false;
        if cfg.freeList { kept := free_buffers_.Write(buf_to_recycle); }
        if !kept { memory := memory - {buf_to_recycle}; }
      }
      receiver := RFront;
    }

    method TakeFront()
      requires QueuesValid() && receiver.RFront?
      requires View().queue != [] ==> TakesFront(View(), ReceiverStep(cfg, View()))
      modifies this`recv_channel_buf, this`received_count, this`receiver, this`received
      ensures QueuesValid() && View() == ReceiverStep(cfg, old(View()))
    {
      var found, e := buffered_payloads_.Front();
      if found {
        received := received + [sent[Popped(View())]];
        recv_channel_buf, received_count, receiver := Some(e.buf), e.count, RPop;
      }
    }

    /** Any interleaving of the two parties' actions is a run of the machine. */
    method RunSchedule(sched: Schedule)
      requires Valid() && View() == Init()
      modifies Repr()
      ensures Valid() && View() == After(cfg, sched)
    {
      Nothing(cfg);
      hide After, Inv, SenderStep, ReceiverStep;
      var i := 0;
      while i < |sched|
        invariant 0 <= i <= |sched|
        invariant Valid() && View() == After(cfg, sched[..i])
      {
        Next(cfg, sched, i);
        var (sends, ch) := sched[i];
        if sends { EnqueueImpl(ch); } else { Dequeue(); }
        i := i + 1;
      }
      assert sched[..|sched|] == sched;
    }

    /** The destructor: free the receiver's buffer, check the queue, drain and free the free list. */
    method Destruct() returns (pass: bool)
      requires Valid() && sender.SIdle? && receiver.RIdle?
      modifies this`memory, free_buffers_
      ensures pass <==> |sent| == |received|
      ensures memory == Destroy(old(View())).live
      ensures pass ==> memory == map[]
    {
      ghost var s := View();
      FifoHere(cfg, s);
      if s.queue == [] { DestroyIdle(cfg, s); }
      LiveBuf(cfg, s);
      hide Inv, FreeAll;
      var n := buffered_payloads_.SizeGuess();
      pass := n == 0;
      if recv_channel_buf.Some? { memory := memory - {recv_channel_buf.value}; }
      Drains(if s.raw.Some? then Free(s, s.raw.value) else s);
      FreeTheList();
    }

    method FreeTheList()
      requires free_buffers_.Valid()
      modifies this`memory, free_buffers_
      ensures memory == Drain(old(memory), old(free_buffers_.Contents()))
    {
      ghost var goal := Drain(memory, free_buffers_.Contents());
      var found, b := free_buffers_.Read();
      while found
        invariant free_buffers_.Valid()
        invariant goal == Drain(memory, if found then [b] + free_buffers_.Contents() else free_buffers_.Contents())
        invariant !found ==> free_buffers_.Contents() == []
        decreases |free_buffers_.Contents()| + if found then 1 else 0
      {
        assert ([b] + free_buffers_.Contents())[1..] == free_buffers_.Contents();
        memory := memory - {b};
        ghost var rest := free_buffers_.Contents();
        found, b := free_buffers_.Read();
        assert found ==> rest == [b] + free_buffers_.Contents();
      }
    }
  }

  function Drain(live: map<Buf, Option<Payload>>, free: seq<Buf>): map<Buf, Option<Payload>> {
    if free == [] then live else Drain(live - {free[0]}, free[1..])
  }

  lemma {:induction false} Drains(s: State)
    ensures FreeAll(s).live == Drain(s.live, s.free)
    decreases |s.free|
  {
    if s.free != [] {
      var s' := Free(s.(free := s.free[1..]), s.free[0]);
      assert s'.live == s.live - {s.free[0]};
      Drains(s');
    }
  }

  lemma LiveBuf(cfg: Config, s: State)
    requires Inv(cfg, s) && s.receiver.RIdle?
    ensures s.raw.Some? ==> s.raw.value in s.live
  {
  }

  lemma FifoHere(cfg: Config, s: State)
    requires Inv(cfg, s) && s.sender.SIdle? && s.receiver.RIdle?
    ensures s.queue == [] <==> |s.sent| == |s.received|
  {
  }
}
