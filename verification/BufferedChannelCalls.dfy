/**
  What a caller of a buffered channel gets from each call: every message it passes is
  sent, in call order; a blocking send is over when the message is in the queue; a wait
  is over when a message was received, a test after one look.
 */
module BufferedChannelCalls {
  import opened Delivery
  import opened BufferedChannel
  import opened BufferedChannelRuns

  // ------------------------------------------------------------------ what was called

  predicate Sends(ch: Choice) { ch.Enqueue? || ch.EnqueueBlocking? }

  /** The messages of the send calls, in call order; a call is made between calls. */
  ghost function Called(cfg: Config, sched: Schedule): seq<Msg>
    requires cfg.Ok()
  {
    if sched == [] then []
    else
      var before, last := sched[..|sched| - 1], sched[|sched| - 1];
      Called(cfg, before) + if last.0 && After(cfg, before).sender.SIdle? && Sends(last.1) then [last.1.m] else []
  }

  /** The buffers named in the Dequeue calls, in call order. */
  ghost function Asked(cfg: Config, sched: Schedule): seq<Buf>
    requires cfg.Ok()
  {
    if sched == [] then []
    else
      var before, last := sched[..|sched| - 1], sched[|sched| - 1];
      Asked(cfg, before) + if !last.0 && After(cfg, before).receiver.RIdle? && last.1.Dequeue? then [last.1.b] else []
  }

  lemma StepSends(cfg: Config, s: State, sends: bool, ch: Choice)
    requires cfg.Ok() && |s.slots| == cfg.Size()
    ensures Step(cfg, s, sends, ch).sent == s.sent + if sends && s.sender.SIdle? && Sends(ch) then [ch.m] else []
  {
  }

  /** What counts as sent is what the caller passed: no message is altered, dropped or invented. */
  lemma {:induction false} SentIsCalled(cfg: Config, sched: Schedule)
    requires cfg.Ok()
    ensures After(cfg, sched).sent == Called(cfg, sched)
  {
    if sched != [] {
      hide Step;
      var before, last := sched[..|sched| - 1], sched[|sched| - 1];
      SentIsCalled(cfg, before);
      StepSends(cfg, After(cfg, before), last.0, last.1);
    }
  }

  /** So the receiver gets the callers' messages, in call order; the rest are in the queue or being sent. */
  lemma {:induction false} CalledFifo(cfg: Config, sched: Schedule)
    requires cfg.Ok()
    ensures var s, called := After(cfg, sched), Called(cfg, sched);
            && |s.received| <= |called| && s.received == called[..|s.received|]
            && (s.sender.SIdle? || s.sender.SDone? ==>
                  |called| - |s.received| == s.w - s.r - if s.okToPop then 1 else 0)
  {
    SentIsCalled(cfg, sched);
    Fifo(cfg, sched);
  }

  lemma StepAsks(cfg: Config, s: State, sends: bool, ch: Choice)
    requires cfg.Ok() && |s.slots| == cfg.Size()
    ensures var s' := Step(cfg, s, sends, ch);
            var asked := if !sends && s.receiver.RIdle? && ch.Dequeue? then [ch.b] else [];
            s'.dequeues == s.dequeues + |asked| && (cfg.userBufs ==> s'.dests == s.dests + asked)
  {
  }

  /** And what counts as asked for is what the receiver's caller asked for. */
  lemma {:induction false} DequeuesAreAsked(cfg: Config, sched: Schedule)
    requires cfg.Ok()
    ensures var s := After(cfg, sched);
            s.dequeues == |Asked(cfg, sched)| && (cfg.userBufs ==> s.dests == Asked(cfg, sched))
  {
    if sched != [] {
      hide Step;
      var before, last := sched[..|sched| - 1], sched[|sched| - 1];
      DequeuesAreAsked(cfg, before);
      StepAsks(cfg, After(cfg, before), last.0, last.1);
    }
  }

  lemma RingStep(cfg: Config, s: State, sends: bool, ch: Choice)
    requires cfg.Ok() && Inv(cfg, s)
    requires 1 <= s.capacity && (s.capacity == 1 || s.capacity <= 2 * s.dequeues)
    ensures var s' := Step(cfg, s, sends, ch); 1 <= s'.capacity && (s'.capacity == 1 || s'.capacity <= 2 * s'.dequeues)
    ensures !cfg.userBufs ==> Step(cfg, s, sends, ch).capacity == s.capacity
  {
    hide SlotsOk, SenderOk, IndicesOk;
  }

  /** The ring of user buffers never grows past twice the Dequeues, and not at all when none names a buffer. */
  lemma {:induction false} RingStaysSmall(cfg: Config, sched: Schedule)
    requires cfg.Ok()
    ensures var s := After(cfg, sched);
            1 <= s.capacity && (s.capacity == 1 || (cfg.userBufs && s.capacity <= 2 * s.dequeues))
  {
    if sched != [] {
      hide Step, Inv;
      var before, last := sched[..|sched| - 1], sched[|sched| - 1];
      RingStaysSmall(cfg, before);
      EveryRun(cfg, before);
      RingStep(cfg, After(cfg, before), last.0, last.1);
    }
  }

  // ------------------------------------------------------------------ one side stands still

  predicate SenderOnly(more: Schedule) { forall i :: 0 <= i < |more| ==> more[i].0 }
  predicate ReceiverOnly(more: Schedule) { forall i :: 0 <= i < |more| ==> !more[i].0 }

  lemma Then(cfg: Config, sched: Schedule, sends: bool, ch: Choice)
    requires cfg.Ok()
    ensures After(cfg, sched + [(sends, ch)]) == Step(cfg, After(cfg, sched), sends, ch)
  {
    assert (sched + [(sends, ch)])[..|sched|] == sched;
  }

  /** The state after a longer schedule, from its last action. */
  lemma {:induction false} LastOf(cfg: Config, begun: Schedule, more: Schedule)
    requires cfg.Ok() && more != []
    ensures var last := |more| - 1;
            After(cfg, begun + more) == Step(cfg, After(cfg, begun + more[..last]), more[last].0, more[last].1)
  {
    var last := |more| - 1;
    assert begun + more == begun + more[..last] + [more[last]];
    Then(cfg, begun + more[..last], more[last].0, more[last].1);
  }

  /** What the receiver does not touch. */
  predicate SameForSender(s: State, s': State) {
    s' == s.(r := s'.r, wCached := s'.wCached, receiver := s'.receiver, okToPop := s'.okToPop, userBufs := s'.userBufs,
             capacity := s'.capacity, mem := s'.mem, received := s'.received, dests := s'.dests,
             dequeues := s'.dequeues, last := s'.last)
    && s.r <= s'.r
  }

  lemma ReceiverFrame(cfg: Config, s: State, ch: Choice)
    requires cfg.Ok() && |s.slots| == cfg.Size()
    ensures SameForSender(s, ReceiverStep(cfg, s, ch))
  {
  }

  lemma {:induction false} ReceiverRuns(cfg: Config, sched: Schedule, more: Schedule)
    requires cfg.Ok() && ReceiverOnly(more)
    ensures SameForSender(After(cfg, sched), After(cfg, sched + more))
  {
    hide ReceiverStep;
    if more == [] {
      assert sched + more == sched;
    } else {
      var last := |more| - 1;
      ReceiverRuns(cfg, sched, more[..last]);
      assert sched + more == sched + more[..last] + [more[last]];
      Then(cfg, sched + more[..last], false, more[last].1);
      ReceiverFrame(cfg, After(cfg, sched + more[..last]), more[last].1);
    }
  }

  /** What the sender does not touch. */
  predicate SameForReceiver(s: State, s': State) {
    s' == s.(slots := s'.slots, w := s'.w, rCached := s'.rCached, sender := s'.sender, sent := s'.sent)
    && s.w <= s'.w && s.sent <= s'.sent
  }

  lemma {:induction false} SenderRuns(cfg: Config, sched: Schedule, more: Schedule)
    requires cfg.Ok() && SenderOnly(more)
    ensures SameForReceiver(After(cfg, sched), After(cfg, sched + more))
  {
    hide SenderStep;
    if more == [] {
      assert sched + more == sched;
    } else {
      var last := |more| - 1;
      SenderRuns(cfg, sched, more[..last]);
      assert sched + more == sched + more[..last] + [more[last]];
      Then(cfg, sched + more[..last], true, more[last].1);
      SenderFrame(cfg, After(cfg, sched + more[..last]), more[last].1);
      SenderPublishes(cfg, After(cfg, sched + more[..last]), more[last].1);
    }
  }

  lemma SenderPublishes(cfg: Config, s: State, ch: Choice)
    requires cfg.Ok() && |s.slots| == cfg.Size()
    ensures var s' := SenderStep(cfg, s, ch); s.w <= s'.w && s.sent <= s'.sent
  {
  }

  // ------------------------------------------------------------------ waits and tests

  /** The receiver's look from state s, at a moment when the sender has brought the state to s1. */
  lemma Look(cfg: Config, s1: State, blocking: bool, ch: Choice)
    requires Inv(cfg, s1) && s1.receiver == RFront(blocking)
    ensures var s2 := ReceiverStep(cfg, s1, ch);
            && s2.received == s1.received
            && if |s1.received| < s1.w then s2.receiver.RRead?
               else if blocking then s2.receiver == RFront(true)
               else s2.receiver.RIdle? && s2.last == DidWait(false)
  {
    hide SlotsOk, SenderOk, UserBufsOk;
  }

  lemma BeginWait(cfg: Config, s: State, blocking: bool)
    requires Inv(cfg, s) && s.receiver.RIdle? && |s.received| < s.dequeues
    ensures var s' := ReceiverStep(cfg, s, Wait(blocking));
            s'.receiver == RFront(blocking) && s'.received == s.received && s'.dequeues == s.dequeues
  {
    hide SlotsOk, SenderOk, UserBufsOk;
  }

  lemma Receive(cfg: Config, s: State, ch: Choice)
    requires Inv(cfg, s) && s.receiver.RRead?
    ensures var s' := ReceiverStep(cfg, s, ch);
            && |s.received| < |s.sent| && s'.receiver.RIdle? && s'.last == DidWait(true) && s'.sent == s.sent
            && s'.received == s.received + [s.sent[|s.received|]]
  {
    ReceiveKeeps(cfg, s, ch);
    hide SlotsOk, SenderOk, UserBufsOk;
  }

  /** After these actions the receiver is over with its call, having received the next message. */
  ghost predicate GotNext(cfg: Config, sched: Schedule, s: State)
    requires cfg.Ok()
  {
    var s' := After(cfg, sched);
    && s'.receiver.RIdle? && s'.last == DidWait(true) && |s.received| < |s'.sent|
    && s'.received == s.received + [s'.sent[|s.received|]]
  }

  /**
    A wait or test begun with nothing received for the last Dequeue yet: at its look
    it finds a message exactly when one is published, and then the next action
    receives it.  If none is, a wait goes on looking and a test is over empty-handed.
    The sender may run between any two of the receiver's actions.
   */
  lemma {:induction false} WaitLooks(cfg: Config, sched: Schedule, blocking: bool,
                                       m1: Schedule, c1: Choice, m2: Schedule, c2: Choice)
    requires cfg.Ok() && SenderOnly(m1) && SenderOnly(m2)
    requires var s := After(cfg, sched); s.receiver.RIdle? && |s.received| < s.dequeues
    ensures var s := After(cfg, sched);
            var look := sched + [(false, Wait(blocking))] + m1;
            var looked := After(cfg, look + [(false, c1)]);
            if |s.received| < After(cfg, look).w then
              !looked.receiver.RIdle? && GotNext(cfg, look + [(false, c1)] + m2 + [(false, c2)], s)
            else
              && looked.received == s.received
              && if blocking then looked.receiver == RFront(true)
                 else looked.receiver.RIdle? && looked.last == DidWait(false)
  {
    var begun := sched + [(false, Wait(blocking))];
    var look := begun + m1;
    hide After, Inv, ReceiverStep;
    EveryRun(cfg, sched);
    BeginWait(cfg, After(cfg, sched), blocking);
    Then(cfg, sched, false, Wait(blocking));
    SenderRuns(cfg, begun, m1);
    EveryRun(cfg, look);
    Look(cfg, After(cfg, look), blocking, c1);
    Then(cfg, look, false, c1);
    if |After(cfg, sched).received| < After(cfg, look).w {
      var looked := look + [(false, c1)];
      SenderRuns(cfg, looked, m2);
      EveryRun(cfg, looked + m2);
      Receive(cfg, After(cfg, looked + m2), c2);
      Then(cfg, looked + m2, false, c2);
    }
  }

  /** The receiver is inside its call after each of these actions, the last excepted. */
  ghost predicate Waiting(cfg: Config, begun: Schedule, more: Schedule)
    requires cfg.Ok()
  {
    forall k :: 0 <= k < |more| ==> !After(cfg, begun + more[..k]).receiver.RIdle?
  }

  lemma {:induction false} WaitingBefore(cfg: Config, begun: Schedule, more: Schedule)
    requires cfg.Ok() && Waiting(cfg, begun, more) && more != []
    ensures Waiting(cfg, begun, more[..|more| - 1]) && !After(cfg, begun + more[..|more| - 1]).receiver.RIdle?
  {
    var last := |more| - 1;
    forall k | 0 <= k < last ensures begun + more[..last][..k] == begun + more[..k] {
      assert more[..last][..k] == more[..k];
    }
  }

  /** Inside a wait nothing is received; at its end, the next message. */
  ghost predicate WaitState(s: State, s': State, blocking: bool) {
    && s.sent <= s'.sent
    && if s'.receiver.RIdle? then
         if s'.last == DidWait(true)
         then |s.received| < |s'.sent| && s'.received == s.received + [s'.sent[|s.received|]]
         else !blocking && s'.last == DidWait(false) && s'.received == s.received
       else s'.received == s.received && (s'.receiver.RFront? ==> s'.receiver.blocking == blocking)
  }

  lemma WaitOn(cfg: Config, s: State, s1: State, blocking: bool, sends: bool, ch: Choice)
    requires Inv(cfg, s1) && WaitState(s, s1, blocking) && !s1.receiver.RIdle?
    ensures WaitState(s, Step(cfg, s1, sends, ch), blocking)
  {
    if sends {
      SenderFrame(cfg, s1, ch);
      SenderPublishes(cfg, s1, ch);
    } else if s1.receiver.RRead? {
      Receive(cfg, s1, ch);
    } else {
      Look(cfg, s1, blocking, ch);
    }
  }

  /**
    A blocking wait is over only with the next message received, whatever both sides
    did meanwhile; a test is over with the next message or with none.
   */
  lemma {:induction false} WaitOver(cfg: Config, sched: Schedule, blocking: bool, more: Schedule)
    requires cfg.Ok() && Waiting(cfg, sched + [(false, Wait(blocking))], more)
    requires var s := After(cfg, sched); s.receiver.RIdle? && |s.received| < s.dequeues
    ensures WaitState(After(cfg, sched), After(cfg, sched + [(false, Wait(blocking))] + more), blocking)
  {
    var begun := sched + [(false, Wait(blocking))];
    if more == [] {
      EveryRun(cfg, sched);
      BeginWait(cfg, After(cfg, sched), blocking);
      Then(cfg, sched, false, Wait(blocking));
      assert begun + more == begun;
    } else {
      hide *;
      var last := |more| - 1;
      WaitingBefore(cfg, begun, more);
      WaitOver(cfg, sched, blocking, more[..last]);
      EveryRun(cfg, begun + more[..last]);
      WaitOn(cfg, After(cfg, sched), After(cfg, begun + more[..last]), blocking, more[last].0, more[last].1);
      LastOf(cfg, begun, more);
    }
  }

  // ------------------------------------------------------------------ sends

  /** Room in the ring, seen from the receiver's own index. */
  predicate Room(cfg: Config, s: State) { s.w - s.r < cfg.maxBufferedMsgs }

  lemma TrySpaceExact(cfg: Config, s: State, m: Msg, more: bool)
    requires cfg.Ok() && IndicesOk(cfg, s) && !Filling(s.sender)
    ensures TrySpace(cfg, s, m, more).sender == if Room(cfg, s) then SSpace(m, more) else SPend(m)
  {
  }

  /** n more of the sender's actions, the receiver running between them. */
  ghost predicate SenderActs(more: Schedule, n: nat)
    decreases |more|
  {
    if more == [] then n == 0
    else
      var last := more[|more| - 1];
      if last.0 then n > 0 && SenderActs(more[..|more| - 1], n - 1) else SenderActs(more[..|more| - 1], n)
  }

  /** Where a message is that has found room, n of the sender's actions later. */
  function FillStage(m: Msg, more: bool, n: nat): SPc
    requires n <= 3
  {
    if n == 0 then SSpace(m, more) else if n == 1 then SCopy(m, more)
    else if n == 2 then SStore(m, more) else if more then SDone else SIdle
  }

  /** Nothing but that message's place has changed for the sender, n of its actions later. */
  predicate FillState(s: State, s': State, m: Msg, more: bool, n: nat)
    requires n <= 3
  {
    s'.sender == FillStage(m, more, n) && s'.sent == s.sent && s'.w == (if n == 3 then s.w + 1 else s.w)
  }

  lemma FillOn(cfg: Config, s: State, s1: State, m: Msg, more: bool, n: nat, sends: bool, ch: Choice)
    requires cfg.Ok() && |s1.slots| == cfg.Size() && n <= 3 && (sends ==> n > 0)
    requires FillState(s, s1, m, more, if sends then n - 1 else n)
    ensures FillState(s, Step(cfg, s1, sends, ch), m, more, n)
  {
    if !sends { ReceiverFrame(cfg, s1, ch); }
  }

  lemma {:induction false} ActsBefore(more: Schedule, n: nat)
    requires SenderActs(more, n) && more != []
    ensures var last := more[|more| - 1];
            if last.0 then n > 0 && SenderActs(more[..|more| - 1], n - 1) else SenderActs(more[..|more| - 1], n)
  {
  }

  lemma {:induction false} FillProceeds(cfg: Config, sched: Schedule, m: Msg, more: bool, acts: Schedule, n: nat)
    requires cfg.Ok() && After(cfg, sched).sender == SSpace(m, more) && n <= 3 && SenderActs(acts, n)
    ensures FillState(After(cfg, sched), After(cfg, sched + acts), m, more, n)
  {
    if acts == [] {
      assert sched + acts == sched;
    } else {
      hide *;
      var last := |acts| - 1;
      ActsBefore(acts, n);
      FillProceeds(cfg, sched, m, more, acts[..last], if acts[last].0 then n - 1 else n);
      FillOn(cfg, After(cfg, sched), After(cfg, sched + acts[..last]), m, more, n, acts[last].0, acts[last].1);
      LastOf(cfg, sched, acts);
    }
  }


  /**
    Enqueue sends at once when the ring has room: three of the sender's actions later,
    whatever the receiver does in between, the message is published and the call over
    with message_send_done.  Without room it leaves the message for the wait.
   */
  lemma {:induction false} EnqueueCall(cfg: Config, sched: Schedule, m: Msg, acts: Schedule)
    requires cfg.Ok() && After(cfg, sched).sender.SIdle? && SenderActs(acts, 3)
    ensures var s := After(cfg, sched);
            var tried := After(cfg, sched + [(true, Enqueue(m))]);
            var s' := After(cfg, sched + [(true, Enqueue(m))] + acts);
            && tried.sent == s.sent + [m]
            && if Room(cfg, s) then s'.sender.SDone? && s'.w == s.w + 1 && s'.sent == s.sent + [m]
               else tried.sender == SPend(m) && tried.w == s.w
  {
    EveryRun(cfg, sched);
    Then(cfg, sched, true, Enqueue(m));
    var s := After(cfg, sched);
    TrySpaceExact(cfg, s.(sent := s.sent + [m]), m, true);
    hide Inv, After;
    if Room(cfg, s) { FillProceeds(cfg, sched + [(true, Enqueue(m))], m, true, acts, 3); }
  }

  /** A pending message: each look publishes it exactly when there is room, and nothing else ends the call. */
  lemma {:induction false} PendingCall(cfg: Config, sched: Schedule, ch: Choice, acts: Schedule)
    requires cfg.Ok() && After(cfg, sched).sender.SPend? && SenderActs(acts, 3)
    ensures var s := After(cfg, sched);
            var tried := After(cfg, sched + [(true, ch)]);
            var s' := After(cfg, sched + [(true, ch)] + acts);
            && tried.sent == s.sent
            && if Room(cfg, s) then s'.sender.SIdle? && s'.w == s.w + 1 && s'.sent == s.sent
               else tried.sender == s.sender && tried.w == s.w
  {
    EveryRun(cfg, sched);
    Then(cfg, sched, true, ch);
    var s := After(cfg, sched);
    TrySpaceExact(cfg, s, s.sender.m, false);
    hide Inv, After;
    if Room(cfg, s) { FillProceeds(cfg, sched + [(true, ch)], s.sender.m, false, acts, 3); }
  }

  /** After message_send_done the wait is over at its first look, with nothing sent. */
  lemma {:induction false} DoneCall(cfg: Config, sched: Schedule, ch: Choice)
    requires cfg.Ok() && After(cfg, sched).sender.SDone?
    ensures var s, s' := After(cfg, sched), After(cfg, sched + [(true, ch)]);
            s'.sender.SIdle? && s'.w == s.w && s'.sent == s.sent
  {
    Then(cfg, sched, true, ch);
    hide After;
  }

  predicate CallOver(pc: SPc) { pc.SIdle? || pc.SDone? }

  /** The sender is inside its call after each of these actions, the last excepted. */
  ghost predicate Sending(cfg: Config, begun: Schedule, more: Schedule)
    requires cfg.Ok()
  {
    forall k :: 0 <= k < |more| ==> !CallOver(After(cfg, begun + more[..k]).sender)
  }

  lemma {:induction false} SendingBefore(cfg: Config, begun: Schedule, more: Schedule)
    requires cfg.Ok() && Sending(cfg, begun, more) && more != []
    ensures Sending(cfg, begun, more[..|more| - 1]) && !CallOver(After(cfg, begun + more[..|more| - 1]).sender)
  {
    var last := |more| - 1;
    forall k | 0 <= k < last ensures begun + more[..last][..k] == begun + more[..k] {
      assert more[..last][..k] == more[..k];
    }
  }

  /** Inside a call its message is not in the queue; when the call is over, it is the last one there. */
  ghost predicate SendState(s: State, s': State, m: Msg, blocking: bool) {
    && s'.sent == s.sent + [m]
    && if CallOver(s'.sender) then s'.w == s.w + 1 && (blocking ==> s'.sender.SIdle?)
       else s'.w == s.w && s'.sender.m == m && (blocking && !s'.sender.SPend? ==> !s'.sender.more)
  }

  lemma SendOn(cfg: Config, s: State, s1: State, m: Msg, blocking: bool, sends: bool, ch: Choice)
    requires cfg.Ok() && |s1.slots| == cfg.Size() && SendState(s, s1, m, blocking) && !CallOver(s1.sender)
    ensures SendState(s, Step(cfg, s1, sends, ch), m, blocking)
  {
    if !sends { ReceiverFrame(cfg, s1, ch); }
  }

  /**
    A call that sends is over only with its message in the queue, whatever both sides
    did meanwhile; a blocking one returns with nothing left to wait for.
   */
  lemma {:induction false} SendOver(cfg: Config, sched: Schedule, ch: Choice, more: Schedule)
    requires cfg.Ok() && Sends(ch) && After(cfg, sched).sender.SIdle?
    requires Sending(cfg, sched + [(true, ch)], more)
    ensures SendState(After(cfg, sched), After(cfg, sched + [(true, ch)] + more), ch.m, ch.EnqueueBlocking?)
  {
    var begun := sched + [(true, ch)];
    if more == [] {
      Then(cfg, sched, true, ch);
      assert begun + more == begun;
    } else {
      hide *;
      var last := |more| - 1;
      SendingBefore(cfg, begun, more);
      SendOver(cfg, sched, ch, more[..last]);
      SendOn(cfg, After(cfg, sched), After(cfg, begun + more[..last]), ch.m, ch.EnqueueBlocking?,
             more[last].0, more[last].1);
      LastOf(cfg, begun, more);
    }
  }
}
