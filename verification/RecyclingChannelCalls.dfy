/**
  What a caller of a recycling channel gets from each call: every message it passes to
  Enqueue is sent, in call order; Enqueue ends once there is room, Dequeue once there
  is a message, with the next one; and memory is allocated or freed only when the free
  list cannot serve.
 */
module RecyclingChannelCalls {
  import opened Delivery
  import opened Options
  import opened Buffers
  import opened RecyclingChannel
  import opened RecyclingChannelRuns

  /** The messages of the Enqueue calls, in call order; a call is made between calls. */
  ghost function Called(cfg: Config, sched: Schedule): seq<Msg> {
    if sched == [] then []
    else
      var before, last := sched[..|sched| - 1], sched[|sched| - 1];
      Called(cfg, before) + if last.0 && After(cfg, before).sender.SIdle? && last.1.Enqueue? then [last.1.m] else []
  }

  lemma StepSends(cfg: Config, s: State, sends: bool, ch: Choice)
    ensures Step(cfg, s, sends, ch).sent == s.sent + if sends && s.sender.SIdle? && ch.Enqueue? then [ch.m] else []
  {
  }

  /** What counts as sent is what the caller passed: no message is altered, dropped or invented. */
  lemma {:induction false} SentIsCalled(cfg: Config, sched: Schedule)
    ensures After(cfg, sched).sent == Called(cfg, sched)
  {
    if sched != [] {
      hide Step;
      var before, last := sched[..|sched| - 1], sched[|sched| - 1];
      SentIsCalled(cfg, before);
      StepSends(cfg, After(cfg, before), last.0, last.1);
    }
  }

  /** So the receiver gets a prefix of the callers' messages, and all once both sides are idle with an empty queue. */
  lemma {:induction false} CalledFifo(cfg: Config, sched: Schedule)
    ensures var s, called := After(cfg, sched), Called(cfg, sched);
            && |s.received| <= |called| && s.received == called[..|s.received|]
            && (s.sender.SIdle? && s.receiver.RIdle? && s.queue == [] ==> s.received == called)
  {
    SentIsCalled(cfg, sched);
    Fifo(cfg, sched);
  }

  // ------------------------------------------------------------------ one side stands still

  predicate SenderOnly(more: Schedule) { forall i :: 0 <= i < |more| ==> more[i].0 }
  predicate ReceiverOnly(more: Schedule) { forall i :: 0 <= i < |more| ==> !more[i].0 }

  lemma Then(cfg: Config, sched: Schedule, sends: bool, ch: Choice)
    ensures After(cfg, sched + [(sends, ch)]) == Step(cfg, After(cfg, sched), sends, ch)
  {
    assert (sched + [(sends, ch)])[..|sched|] == sched;
  }

  /** The state after a longer schedule, from its last action. */
  lemma {:induction false} LastOf(cfg: Config, begun: Schedule, more: Schedule)
    requires more != []
    ensures var last := |more| - 1;
            After(cfg, begun + more) == Step(cfg, After(cfg, begun + more[..last]), more[last].0, more[last].1)
  {
    var last := |more| - 1;
    assert begun + more == begun + more[..last] + [more[last]];
    Then(cfg, begun + more[..last], more[last].0, more[last].1);
  }

  /** What the receiver does not take from the sender: its place, room once there, and fresh addresses. */
  ghost predicate SameForSender(s: State, s': State) {
    s'.sender == s.sender && s'.sent == s.sent && |s'.queue| <= |s.queue| && s'.live.Keys <= s.live.Keys
  }

  lemma ReceiverFrame(cfg: Config, s: State)
    ensures SameForSender(s, ReceiverStep(cfg, s))
  {
  }

  lemma {:induction false} ReceiverRuns(cfg: Config, sched: Schedule, more: Schedule)
    requires ReceiverOnly(more)
    ensures SameForSender(After(cfg, sched), After(cfg, sched + more))
  {
    hide ReceiverStep;
    if more == [] {
      assert sched + more == sched;
    } else {
      var last := |more| - 1;
      ReceiverRuns(cfg, sched, more[..last]);
      assert sched + more == sched + more[..last] + [more[last]];
      Then(cfg, sched + more[..last], false, more[last].1);
      ReceiverFrame(cfg, After(cfg, sched + more[..last]));
    }
  }

  /** What the sender does not take from the receiver: its place, what it received, and a message once there. */
  ghost predicate SameForReceiver(s: State, s': State) {
    && s'.receiver == s.receiver && s'.received == s.received
    && s.sent <= s'.sent && (s.queue != [] ==> s'.queue != [])
  }

  lemma SenderFrame(cfg: Config, s: State, ch: Choice)
    ensures SameForReceiver(s, SenderStep(cfg, s, ch))
  {
  }

  lemma {:induction false} SenderRuns(cfg: Config, sched: Schedule, more: Schedule)
    requires SenderOnly(more)
    ensures SameForReceiver(After(cfg, sched), After(cfg, sched + more))
  {
    hide SenderStep;
    if more == [] {
      assert sched + more == sched;
    } else {
      var last := |more| - 1;
      SenderRuns(cfg, sched, more[..last]);
      assert sched + more == sched + more[..last] + [more[last]];
      Then(cfg, sched + more[..last], true, more[last].1);
      SenderFrame(cfg, After(cfg, sched + more[..last]), more[last].1);
    }
  }

  // ------------------------------------------------------------------ calls

  /**
    With room in the queue and an address malloc may return, an Enqueue is over after
    three more of the sender's actions, whatever the receiver does between them, and
    its message has been queued.
   */
  lemma {:induction false} EnqueueCompletes(cfg: Config, sched: Schedule, m: Msg, b: Buf,
                                              r1: Schedule, r2: Schedule, r3: Schedule)
    requires ReceiverOnly(r1) && ReceiverOnly(r2) && ReceiverOnly(r3)
    requires var s := After(cfg, sched); s.sender.SIdle? && |s.queue| < cfg.capacity && b !in s.live
    ensures var s := After(cfg, sched);
            var got := sched + [(true, Enqueue(m))] + r1 + [(true, Malloc(b))];
            var s' := After(cfg, got + r2 + [(true, Go)] + r3 + [(true, Go)]);
            s'.sender.SIdle? && s'.sent == s.sent + [m] && |s'.sent| == Popped(s') + |s'.queue|
  {
    var a1 := sched + [(true, Enqueue(m))];
    var a2 := a1 + r1 + [(true, Malloc(b))];
    var a3 := a2 + r2 + [(true, Go)];
    var a4 := a3 + r3 + [(true, Go)];
    Then(cfg, sched, true, Enqueue(m));
    Then(cfg, a1 + r1, true, Malloc(b));
    Then(cfg, a2 + r2, true, Go);
    Then(cfg, a3 + r3, true, Go);
    hide After, SenderStep;
    SendNext(cfg, After(cfg, sched), Enqueue(m));
    ReceiverRuns(cfg, a1, r1);
    SendNext(cfg, After(cfg, a1 + r1), Malloc(b));
    ReceiverRuns(cfg, a2, r2);
    SendNext(cfg, After(cfg, a2 + r2), Go);
    ReceiverRuns(cfg, a3, r3);
    SendNext(cfg, After(cfg, a3 + r3), Go);
    AllQueued(cfg, a4);
  }

  /** The sender's next place, when nothing holds it up. */
  lemma SendNext(cfg: Config, s: State, ch: Choice)
    requires |s.queue| < cfg.capacity && (s.sender.SIdle? ==> ch.Enqueue?)
    requires s.sender.SGet? ==> ch.Malloc? && ch.b !in s.live
    ensures var s' := SenderStep(cfg, s, ch);
            match s.sender
            case SIdle =>
              s'.sender == SGet(ch.m) && s'.sent == s.sent + [ch.m] && s'.queue == s.queue && s'.live == s.live
            case SGet(_) => s'.sender.SFill? && s'.sent == s.sent && s'.queue == s.queue
            case SFill(_, _) => s'.sender.SWrite? && s'.sent == s.sent && s'.queue == s.queue
            case SWrite(_, _) => s'.sender.SIdle? && s'.sent == s.sent
  {
  }

  lemma {:induction false} AllQueued(cfg: Config, sched: Schedule)
    ensures var s := After(cfg, sched); s.sender.SIdle? ==> |s.sent| == Popped(s) + |s.queue|
  {
    EveryRun(cfg, sched);
    hide Owned, ReceiverOk;
  }

  /**
    A Dequeue begun with a message in the queue, or that finds one when it looks, is over
    two of the receiver's actions later with the next message received, whatever the
    sender does meanwhile; at an empty queue it goes on looking.
   */
  lemma {:induction false} DequeueCompletes(cfg: Config, sched: Schedule, m1: Schedule, m2: Schedule)
    requires SenderOnly(m1) && SenderOnly(m2) && After(cfg, sched).receiver.RIdle?
    ensures var s := After(cfg, sched);
            var look := sched + [(false, Go)] + m1;
            var looked := After(cfg, look + [(false, Go)]);
            var s' := After(cfg, look + [(false, Go)] + m2 + [(false, Go)]);
            if After(cfg, look).queue == [] then looked.receiver.RFront? && looked.received == s.received
            else
              && s'.receiver.RIdle? && |s.received| < |s'.sent|
              && s'.received == s.received + [s'.sent[|s.received|]]
  {
    var begun := sched + [(false, Go)];
    var look := begun + m1;
    var looked := look + [(false, Go)];
    EveryRun(cfg, look);
    Then(cfg, sched, false, Go);
    Then(cfg, look, false, Go);
    Then(cfg, looked + m2, false, Go);
    hide After, Inv, ReceiverStep;
    Returns(cfg, After(cfg, sched));
    SenderRuns(cfg, begun, m1);
    Look(cfg, After(cfg, look));
    SenderRuns(cfg, looked, m2);
    Pops(cfg, After(cfg, looked + m2));
  }

  lemma Returns(cfg: Config, s: State)
    requires s.receiver.RIdle?
    ensures var s' := ReceiverStep(cfg, s); s'.receiver.RFront? && s'.received == s.received
  {
  }

  lemma Look(cfg: Config, s: State)
    requires Inv(cfg, s) && s.receiver.RFront?
    ensures var s' := ReceiverStep(cfg, s);
            if s.queue == [] then s' == s
            else
              && s'.receiver.RPop? && |s.received| < |s.sent| && s'.sent == s.sent
              && s'.received == s.received + [s.sent[|s.received|]]
  {
    hide Owned, QueueOk, ReceiverOk;
    FrontKeeps(cfg, s);
  }

  lemma Pops(cfg: Config, s: State)
    ensures var s' := ReceiverStep(cfg, s);
            s'.sent == s.sent && (s.receiver.RPop? ==> s'.receiver.RIdle? && s'.received == s.received)
  {
  }

  /** The receiver is inside its call after each of these actions, the last excepted. */
  ghost predicate Waiting(cfg: Config, begun: Schedule, more: Schedule) {
    forall k :: 0 <= k < |more| ==> !After(cfg, begun + more[..k]).receiver.RIdle?
  }

  lemma {:induction false} WaitingBefore(cfg: Config, begun: Schedule, more: Schedule)
    requires Waiting(cfg, begun, more) && more != []
    ensures Waiting(cfg, begun, more[..|more| - 1]) && !After(cfg, begun + more[..|more| - 1]).receiver.RIdle?
  {
    var last := |more| - 1;
    forall k | 0 <= k < last ensures begun + more[..last][..k] == begun + more[..k] {
      assert more[..last][..k] == more[..k];
    }
  }

  /** Until the look that finds a message nothing is received, and from then on the next message. */
  ghost predicate DequeueState(s: State, s': State) {
    if s'.receiver.RFront? then s'.received == s.received
    else |s.received| < |s'.sent| && s'.received == s.received + [s'.sent[|s.received|]]
  }

  lemma DequeueOn(cfg: Config, s: State, s1: State, sends: bool, ch: Choice)
    requires Inv(cfg, s1) && DequeueState(s, s1) && !s1.receiver.RIdle?
    ensures DequeueState(s, Step(cfg, s1, sends, ch))
  {
    hide Inv, SenderStep;
    if sends {
      SenderFrame(cfg, s1, ch);
    } else if s1.receiver.RFront? {
      Look(cfg, s1);
    }
  }

  /** A Dequeue is over only with the next message received. */
  lemma {:induction false} DequeueOver(cfg: Config, sched: Schedule, more: Schedule)
    requires After(cfg, sched).receiver.RIdle? && Waiting(cfg, sched + [(false, Go)], more)
    ensures DequeueState(After(cfg, sched), After(cfg, sched + [(false, Go)] + more))
  {
    var begun := sched + [(false, Go)];
    if more == [] {
      Then(cfg, sched, false, Go);
      assert begun + more == begun;
    } else {
      hide *;
      var last := |more| - 1;
      WaitingBefore(cfg, begun, more);
      DequeueOver(cfg, sched, more[..last]);
      EveryRun(cfg, begun + more[..last]);
      DequeueOn(cfg, After(cfg, sched), After(cfg, begun + more[..last]), more[last].0, more[last].1);
      LastOf(cfg, begun, more);
    }
  }

  /** With the free list, the sender allocates only when it is empty and the receiver frees only when it is full. */
  lemma {:induction false} RecyclesWhenItCan(cfg: Config, sched: Schedule, sends: bool, ch: Choice)
    requires cfg.freeList
    ensures var s := After(cfg, sched);
            var s' := Step(cfg, s, sends, ch);
            s'.live.Keys != s.live.Keys ==> if sends then s.free == [] else |s.free| == cfg.capacity
  {
    EveryRun(cfg, sched);
    hide QueueOk, ReceiverOk;
    var s := After(cfg, sched);
    if s.sender.SFill? {
      SenderAlone(s, 0);
      assert s.live[s.sender.b := Some(s.sender.m.payload)].Keys == s.live.Keys;
    }
  }
}
