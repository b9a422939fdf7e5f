/**
  The buffered channel and its ring, updated in place.  The ring keeps its indices
  wrapped around; the ghost counters beside them do not wrap.
 */
module BufferedProcessChannelObject {
  import opened Delivery
  import opened RingIndices
  import opened BufferedChannel
  import opened BufferedChannelRuns

  // ------------------------------------------------------------------ the ring

  class UntypedProducerConsumerQueue {
    const size_: nat
    const records_: array<Slot>
    var readIndex_: nat
    var writeIndex_cached: nat
    var writeIndex_: nat
    var readIndex_cached: nat

    // the same four without wrap-around
    ghost var r: nat
    ghost var wCached: nat
    ghost var w: nat
    ghost var rCached: nat

    ghost predicate Valid()
      reads this
    {
      && size_ >= 2 && records_.Length == size_
      && readIndex_ == r % size_ && writeIndex_ == w % size_
      && readIndex_cached == rCached % size_ && writeIndex_cached == wCached % size_
      && rCached <= r <= wCached <= w <= rCached + size_ - 1
    }

    constructor (size: nat)
      requires size >= 2
      ensures Valid() && size_ == size && fresh(records_)
      ensures r == w == rCached == wCached == 0
      ensures records_[..] == seq(size, _ => Empty)
    {
      size_ := size;
      records_ := new Slot[size](_ => Empty);
      readIndex_, writeIndex_, readIndex_cached, writeIndex_cached := 0, 0, 0, 0;
      r, w, rCached, wCached := 0, 0, 0, 0;
    }

    /** writeAndCopyBuf's check, up to the copy. */
    method HasSpace() returns (space: bool)
      requires Valid()
      modifies this`readIndex_cached, this`rCached
      ensures Valid()
      ensures rCached == if w + 1 == old(rCached) + size_ then r else old(rCached)
      ensures space <==> w + 1 != rCached + size_
    {
      var nextRecord := NextIndex(writeIndex_, size_);
      NextWraps(w, size_);
      FullWhenEqual(rCached, w, size_);
      if nextRecord == readIndex_cached {
        readIndex_cached, rCached := readIndex_, r;
        FullWhenEqual(rCached, w, size_);
      }
      space := nextRecord != readIndex_cached;
    }

    method CopyIn(v: Slot)
      requires Valid()
      modifies records_
      ensures records_[..] == old(records_[..])[w % size_ := v]
    {
      records_[writeIndex_] := v;
    }

    /** The release store of the write index. */
    method Publish()
      requires Valid() && w + 1 != rCached + size_
      modifies this`writeIndex_, this`w
      ensures Valid() && w == old(w) + 1
    {
      NextWraps(w, size_);
      writeIndex_, w := NextIndex(writeIndex_, size_), w + 1;
    }

    /** Whether there is a front record; it is at the read index. */
    method FrontPtr() returns (found: bool)
      requires Valid()
      modifies this`writeIndex_cached, this`wCached
      ensures Valid()
      ensures wCached == if r == old(wCached) then w else old(wCached)
      ensures found <==> r != wCached
    {
      WithinALap(r, wCached, size_);
      if readIndex_ == writeIndex_cached {
        writeIndex_cached, wCached := writeIndex_, w;
        WithinALap(r, wCached, size_);
      }
      found := readIndex_ != writeIndex_cached;
    }

    method PopFront()
      requires Valid() && r < wCached
      modifies this`readIndex_, this`r
      ensures Valid() && r == old(r) + 1
    {
      NextWraps(r, size_);
      readIndex_, r := NextIndex(readIndex_, size_), r + 1;
    }
  }

  // ------------------------------------------------------------------ the channel

  class ProcessChannel {
    const cfg: Config
    const buffered_payloads_: UntypedProducerConsumerQueue

    var sender: SPc
    var receiver: RPc
    var ok_to_pop_buffer: bool
    var buffered_dequeue_dest_bufs: seq<Buf>
    var dest_bufs_capacity: nat
    var user_memory: map<Buf, Msg>
    var dequeues: nat
    var num_completed_dequeues: nat

    // history
    ghost var sent: seq<Msg>
    ghost var received: seq<Msg>
    ghost var dests: seq<Buf>
    ghost var last: Call

    ghost function View(): State
      reads this, buffered_payloads_, buffered_payloads_.records_
    {
      var q := buffered_payloads_;
      State(q.records_[..], q.r, q.w, q.rCached, q.wCached, sender, receiver, ok_to_pop_buffer,
            buffered_dequeue_dest_bufs, dest_bufs_capacity, user_memory, sent, received, dests, dequeues, last)
    }

    ghost predicate Valid()
      reads this, buffered_payloads_, buffered_payloads_.records_
    {
      && buffered_payloads_.Valid() && buffered_payloads_.size_ == cfg.Size()
      && num_completed_dequeues == |received|
      && Inv(cfg, View())
    }

    constructor (cfg: Config)
      requires cfg.Ok()
      ensures this.cfg == cfg && Valid() && View() == Init(cfg)
      ensures fresh(buffered_payloads_) && fresh(buffered_payloads_.records_)
    {
      this.cfg := cfg;
      buffered_payloads_ := new UntypedProducerConsumerQueue(cfg.maxBufferedMsgs + 1);
      sender, receiver, ok_to_pop_buffer := SIdle, RIdle, false;
      buffered_dequeue_dest_bufs, dest_bufs_capacity, user_memory := [], 1, map[];
      dequeues, num_completed_dequeues := 0, 0;
      sent, received, dests, last := [], [], [], NoCall;
      new;
      assert View() == After(cfg, []);
    }

    method TryToSend(m: Msg, more: bool)
      requires Valid()
      modifies this`sender, buffered_payloads_
      ensures buffered_payloads_.Valid() && View() == TrySpace(cfg, old(View()), m, more)
    {
      var space := buffered_payloads_.HasSpace();
      sender := if space then SSpace(m, more) else SPend(m);
    }

    /** EnqueueImpl, up to the copy. */
    method EnqueueImpl(m: Msg)
      requires Valid() && sender.SIdle?
      modifies this, buffered_payloads_
      ensures Valid() && View() == SenderStep(cfg, old(View()), Enqueue(m))
    {
      StepInv(cfg, View(), true, Enqueue(m));
      ghost var s0 := View();
      TryToSend(m, true);
      sent := sent + [m];
      assert View() == TrySpace(cfg, s0, m, true).(sent := s0.sent + [m]);
    }

    /** EnqueueBlocking's first action: it keeps the message and starts to spin. */
    method EnqueueBlockingCall(m: Msg)
      requires Valid() && sender.SIdle?
      modifies this
      ensures Valid() && View() == SenderStep(cfg, old(View()), EnqueueBlocking(m))
    {
      StepInv(cfg, View(), true, EnqueueBlocking(m));
      sent := sent + [m];
      sender := SPend(m);
    }

    /** The sender's next action in EnqueueWait, EnqueueTest or EnqueueBlocking; `done` ends the call. */
    method EnqueueWait(ch: Choice) returns (done: bool)
      requires Valid() && !sender.SIdle?
      modifies this, buffered_payloads_, buffered_payloads_.records_
      ensures Valid() && View() == SenderStep(cfg, old(View()), ch)
      ensures done <==> sender.SIdle?
    {
      StepInv(cfg, View(), true, ch);
      if sender.SPend? {
        TryToSend(sender.m, false);
      } else if sender.SSpace? || sender.SCopy? {
        CopyBytes(ch);
      } else {
        FinishSend(ch);
      }
      done := sender.SIdle?;
    }

    /** The start or the end of the copy into the ring. */
    method CopyBytes(ch: Choice)
      requires Valid() && (sender.SSpace? || sender.SCopy?)
      modifies this`sender, buffered_payloads_.records_
      ensures buffered_payloads_.Valid() && View() == SenderStep(cfg, old(View()), ch)
    {
      hide Inv;
      if sender.SSpace? {
        buffered_payloads_.CopyIn(Torn);
        sender := SCopy(sender.m, sender.more);
      } else {
        buffered_payloads_.CopyIn(Full(sender.m));
        sender := SStore(sender.m, sender.more);
      }
    }

    method FinishSend(ch: Choice)
      requires Valid() && (sender.SStore? || sender.SDone?)
      modifies this`sender, buffered_payloads_
      ensures buffered_payloads_.Valid() && View() == SenderStep(cfg, old(View()), ch)
    {
      if sender.SStore? {
        buffered_payloads_.Publish();
        sender := if sender.more then SDone else SIdle;
      } else {
        sender := SIdle;
      }
    }

    method PopUsedFront()
      requires Valid() && receiver.RIdle?
      modifies this`ok_to_pop_buffer, buffered_payloads_
      ensures buffered_payloads_.Valid() && View() == PopUsed(old(View()))
    {
      if ok_to_pop_buffer {
        buffered_payloads_.PopFront();
        ok_to_pop_buffer := false;
      }
    }

    /** Dequeue: post the user buffer, growing their ring when it has one place left; pop the used front. */
    method Dequeue(user_buf: Buf)
      requires Valid() && receiver.RIdle?
      modifies this, buffered_payloads_
      ensures Valid() && View() == ReceiverStep(cfg, old(View()), BufferedChannel.Dequeue(user_buf))
    {
      ghost var s0 := View();
      StepInv(cfg, s0, false, BufferedChannel.Dequeue(user_buf));
      PopUsedFront();
      PostUserBuf(user_buf);
      PopThenPost(cfg, s0, user_buf);
    }

    method PostUserBuf(user_buf: Buf)
      modifies this`buffered_dequeue_dest_bufs, this`dest_bufs_capacity, this`dests, this`dequeues, this`last
      ensures View() == Posted(cfg, old(View()), user_buf)
    {
      if cfg.userBufs {
        if dest_bufs_capacity - |buffered_dequeue_dest_bufs| == 1 {
          dest_bufs_capacity := dest_bufs_capacity * 2;
        }
        buffered_dequeue_dest_bufs := PushBack(buffered_dequeue_dest_bufs, dest_bufs_capacity, user_buf);
        dests := dests + [user_buf];
      }
      dequeues, last := dequeues + 1, DidDequeue;
    }

    /** DequeueWait's pop of the used front. */
    method DequeueWait(actually_blocking_wait: bool)
      requires Valid() && receiver.RIdle? && num_completed_dequeues < dequeues
      modifies this, buffered_payloads_
      ensures Valid() && View() == ReceiverStep(cfg, old(View()), Wait(actually_blocking_wait))
    {
      StepInv(cfg, View(), false, Wait(actually_blocking_wait));
      PopUsedFront();
      receiver := RFront(actually_blocking_wait);
    }

    /** DequeueWaitBlockingThisOnly's next look at the front. */
    method FrontMessage(ch: Choice)
      requires Valid() && receiver.RFront?
      modifies this, buffered_payloads_
      ensures Valid() && View() == ReceiverStep(cfg, old(View()), ch)
    {
      StepInv(cfg, View(), false, ch);
      hide Inv;
      var blocking := receiver.blocking;
      var found := buffered_payloads_.FrontPtr();
      if found {
        receiver := RRead;
      } else if !blocking {
        receiver, last := RIdle, DidWait(false);
      }
    }

    method FinalizeMessageReceive(ch: Choice)
      requires Valid() && receiver.RRead?
      modifies this
      ensures Valid() && View() == ReceiverStep(cfg, old(View()), ch)
      ensures received == old(received) + [sent[|old(received)|]]
    {
      StepInv(cfg, View(), false, ch);
      ReceiveKeeps(cfg, View(), ch);
      FrontIsFull(cfg, View());
      hide Inv, ReceiverStep;
      var q := buffered_payloads_;
      Deliver(q.records_[q.readIndex_].msg);
    }

    /** The front message goes to its user buffer, if there is one, and is handed over. */
    method Deliver(m: Msg)
      modifies this
      ensures View() == ReceiveStep(old(View()), m)
      ensures num_completed_dequeues == old(num_completed_dequeues) + 1
    {
      if |buffered_dequeue_dest_bufs| > 0 {
        user_memory := user_memory[buffered_dequeue_dest_bufs[0] := m];
        buffered_dequeue_dest_bufs := buffered_dequeue_dest_bufs[1..];
      }
      num_completed_dequeues := num_completed_dequeues + 1;
      ok_to_pop_buffer, receiver := true, RIdle;
      received, last := received + [m], DidWait(true);
    }

    method SenderAction(ch: Choice)
      requires Valid()
      modifies this, buffered_payloads_, buffered_payloads_.records_
      ensures Valid() && View() == SenderStep(cfg, old(View()), ch)
    {
      if !sender.SIdle? {
        var _ := EnqueueWait(ch);
      } else if ch.Enqueue? {
        EnqueueImpl(ch.m);
      } else if ch.EnqueueBlocking? {
        EnqueueBlockingCall(ch.m);
      }
    }

    method ReceiverAction(ch: Choice)
      requires Valid()
      modifies this, buffered_payloads_
      ensures Valid() && View() == ReceiverStep(cfg, old(View()), ch)
    {
      if receiver.RFront? {
        FrontMessage(ch);
      } else if receiver.RRead? {
        FinalizeMessageReceive(ch);
      } else if ch.Dequeue? {
        Dequeue(ch.b);
      } else if ch.Wait? && num_completed_dequeues < dequeues {
        DequeueWait(ch.blocking);
      }
    }

    /** Any interleaving of the two parties' calls is a run of the machine. */
    method RunSchedule(sched: Schedule)
      requires Valid() && View() == Init(cfg)
      modifies this, buffered_payloads_, buffered_payloads_.records_
      ensures Valid() && View() == After(cfg, sched)
    {
      var i := 0;
      while i < |sched|
        invariant 0 <= i <= |sched|
        invariant Valid() && View() == After(cfg, sched[..i])
      {
        hide Inv, SenderStep, ReceiverStep;
        assert sched[..i + 1][..i] == sched[..i];
        var (sends, ch) := sched[i];
        if sends { SenderAction(ch); } else { ReceiverAction(ch); }
        i := i + 1;
      }
      assert sched[..|sched|] == sched;
    }

    /** The destructor's two checks. */
    method DestructorChecks() returns (pass: bool)
      requires Valid()
      ensures pass <==> DestructorChecksPass(View())
    {
      var q := buffered_payloads_;
      var sizeGuess := q.writeIndex_ as int - q.readIndex_ as int;
      if sizeGuess < 0 { sizeGuess := sizeGuess + q.size_; }
      SizeGuessExact(q.r, q.w, q.size_);
      pass := sizeGuess == 1 && ok_to_pop_buffer;
    }
  }

  lemma FrontIsFull(cfg: Config, s: State)
    requires Inv(cfg, s) && s.receiver.RRead?
    ensures s.r < |s.sent| && |s.slots| == cfg.Size() && s.slots[s.r % cfg.Size()] == Full(s.sent[s.r])
    ensures |s.received| == s.r
  {
    assert s.slots[s.r % |s.slots|] == Full(s.sent[s.r]);
  }

  /** A Dequeue without its pop. */
  function Posted(cfg: Config, s: State, b: Buf): State {
    DequeueStep(cfg, s.(okToPop := false), b).(okToPop := s.okToPop)
  }

  /** The pop and the posting of a user buffer may come in either order. */
  lemma PopThenPost(cfg: Config, s: State, b: Buf)
    ensures DequeueStep(cfg, s, b) == Posted(cfg, PopUsed(s), b)
  {
  }
}
