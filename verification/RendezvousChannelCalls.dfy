/**
  What a caller of a rendezvous channel gets from each call: every message it passes is
  sent, in call order; a send is over when the message has been copied and its count
  queued; a wait is over when a count was taken, a test after one look.
 */
module RendezvousChannelCalls {
  import opened Delivery
  import opened RendezvousChannel
  import opened RendezvousChannelRuns

  // ------------------------------------------------------------------ what was called

  predicate Sends(ch: Choice) { ch.Enqueue? || ch.EnqueueBlocking? }

  /** The messages of the send calls, in call order; none is made after a check has failed. */
  ghost function Called(cfg: Config, sched: Schedule): seq<Msg>
    requires cfg.Ok()
  {
    if sched == [] then []
    else
      var before, last := sched[..|sched| - 1], sched[|sched| - 1];
      var s := After(cfg, before);
      Called(cfg, before) +
      if last.0 && s.fault == NoFault && s.sender.SIdle? && Sends(last.1) then [last.1.m] else []
  }

  /** The buffers named in the Dequeue calls, in call order. */
  ghost function Asked(cfg: Config, sched: Schedule): seq<Buf>
    requires cfg.Ok()
  {
    if sched == [] then []
    else
      var before, last := sched[..|sched| - 1], sched[|sched| - 1];
      var s := After(cfg, before);
      Asked(cfg, before) +
      if !last.0 && s.fault == NoFault && s.receiver.RIdle? && last.1.Dequeue? then [last.1.b] else []
  }

  lemma StepSends(cfg: Config, s: State, sends: bool, ch: Choice)
    ensures Step(cfg, s, sends, ch).sent
            == s.sent + if sends && s.fault == NoFault && s.sender.SIdle? && Sends(ch) then [ch.m] else []
  {
  }

  /** So a wait returns its caller's message's count: the i-th wait that of the i-th send call. */
  lemma {:induction false} WaitsMatchCalls(cfg: Config, sched: Schedule, i: nat)
    requires cfg.Ok() && i < |After(cfg, sched).got|
    ensures i < |Called(cfg, sched)| && After(cfg, sched).got[i] == Called(cfg, sched)[i].count
  {
    SentIsCalled(cfg, sched);
    WaitsMatchSends(cfg, sched, i);
  }

  /** What counts as sent is what the caller passed: no message is altered, dropped or invented. */
  lemma {:induction false} SentIsCalled(cfg: Config, sched: Schedule)
    requires cfg.Ok()
    ensures After(cfg, sched).sent == Called(cfg, sched)
  {
    if sched != [] {
      hide Step;
      var before, last := sched[..|sched| - 1], sched[|sched| - 1];
      SentIsCalled(cfg, before);
      StepSends(cfg, After(cfg, before), last.0, last.1);
    }
  }

  lemma StepAsks(cfg: Config, s: State, sends: bool, ch: Choice)
    requires s.fault == NoFault
    ensures var s' := Step(cfg, s, sends, ch);
            var asked := s.dests + if !sends && s.receiver.RIdle? && ch.Dequeue? then [ch.b] else [];
            if s'.fault == RequestsFull then asked != [] && s'.dests == asked[..|asked| - 1] else s'.dests == asked
  {
  }

  /** The requests are the buffers asked for, except the one whose Dequeue found the queue full. */
  lemma {:induction false} DestsAreAsked(cfg: Config, sched: Schedule)
    requires cfg.Ok()
    ensures var s, asked := After(cfg, sched), Asked(cfg, sched);
            if s.fault == RequestsFull then asked != [] && s.dests == asked[..|asked| - 1] else s.dests == asked
  {
    if sched != [] {
      var before, last := sched[..|sched| - 1], sched[|sched| - 1];
      DestsAreAsked(cfg, before);
      if After(cfg, before).fault == NoFault {
        hide Step;
        StepAsks(cfg, After(cfg, before), last.0, last.1);
      }
    }
  }

  // ------------------------------------------------------------------ one side stands still

  predicate SenderOnly(more: Schedule) { forall i :: 0 <= i < |more| ==> more[i].0 }

  lemma Then(cfg: Config, sched: Schedule, sends: bool, ch: Choice)
    requires cfg.Ok()
    ensures After(cfg, sched + [(sends, ch)]) == Step(cfg, After(cfg, sched), sends, ch)
  {
    assert (sched + [(sends, ch)])[..|sched|] == sched;
  }

  /** The state after a longer schedule, from its last action. */
  lemma {:induction false} LastOf(cfg: Config, begun: Schedule, more: Schedule)
    requires cfg.Ok() && more != []
    ensures var last := |more| - 1;
            After(cfg, begun + more) == Step(cfg, After(cfg, begun + more[..last]), more[last].0, more[last].1)
  {
    var last := |more| - 1;
    assert begun + more == begun + more[..last] + [more[last]];
    Then(cfg, begun + more[..last], more[last].0, more[last].1);
  }

  /** What the sender does not touch. */
  predicate SameForReceiver(s: State, s': State) {
    s'.receiver == s.receiver && s'.got == s.got && s'.dests == s.dests && s.sent <= s'.sent
  }

  lemma SenderFrame(cfg: Config, s: State, ch: Choice)
    ensures SameForReceiver(s, Step(cfg, s, true, ch))
  {
  }

  lemma {:induction false} SenderRuns(cfg: Config, sched: Schedule, more: Schedule)
    requires cfg.Ok() && SenderOnly(more)
    ensures SameForReceiver(After(cfg, sched), After(cfg, sched + more))
  {
    hide Step;
    if more == [] {
      assert sched + more == sched;
    } else {
      var last := |more| - 1;
      SenderRuns(cfg, sched, more[..last]);
      assert sched + more == sched + more[..last] + [more[last]];
      Then(cfg, sched + more[..last], true, more[last].1);
      SenderFrame(cfg, After(cfg, sched + more[..last]), more[last].1);
    }
  }

  lemma ReceiverFrame(cfg: Config, s: State, ch: Choice)
    ensures var s' := Step(cfg, s, false, ch);
            s'.sender == s.sender && s'.sent == s.sent && s'.pushed == s.pushed && s'.mem == s.mem
  {
  }

  // ------------------------------------------------------------------ waits and tests

  /** One read of the count queue: what it takes is the next message's count. */
  lemma Look(cfg: Config, s: State, ch: Choice)
    requires Inv(cfg, s) && s.receiver.RWait? && s.fault == NoFault
    ensures var s' := Step(cfg, s, false, ch);
            if |s.got| < s.pushed then
              && s'.receiver.RIdle? && |s.got| < |s.sent| && s'.got == s.got + [s.sent[|s.got|].count]
              && s'.fault == if s.sent[|s.got|].count == 0 then ZeroCount else NoFault
            else
              && s'.got == s.got && s'.fault == NoFault
              && s'.receiver == if s.receiver.blocking then s.receiver else RIdle
  {
    hide SenderOk, MemOk, FitsOk, Replay;
    if s.counts != [] { assert s.counts[0] == s.sent[|s.got| + 0].count; }
  }

  /**
    A wait or test: its look takes a count exactly when one is queued, and then it is
    over with the next message's count.  If none is, a wait goes on looking and a test
    is over with nothing taken.  The sender may run before the look.
   */
  lemma {:induction false} WaitLooks(cfg: Config, sched: Schedule, blocking: bool, more: Schedule, ch: Choice)
    requires cfg.Ok() && SenderOnly(more)
    requires var s := After(cfg, sched); s.receiver.RIdle? && |s.got| < |s.dests|
    requires After(cfg, sched + [(false, Wait(blocking))] + more).fault == NoFault
    requires After(cfg, sched).fault == NoFault
    ensures var s := After(cfg, sched);
            var look := sched + [(false, Wait(blocking))] + more;
            var s1, s' := After(cfg, look), After(cfg, look + [(false, ch)]);
            if |s.got| < s1.pushed then
              && s'.receiver.RIdle? && |s.got| < |s'.sent| && s'.got == s.got + [s'.sent[|s.got|].count]
              && s'.fault == if s'.sent[|s.got|].count == 0 then ZeroCount else NoFault
            else
              s'.got == s.got && s'.fault == NoFault && s'.receiver == if blocking then RWait(true) else RIdle
  {
    var begun := sched + [(false, Wait(blocking))];
    var look := begun + more;
    Then(cfg, sched, false, Wait(blocking));
    SenderRuns(cfg, begun, more);
    EveryRun(cfg, look);
    hide Inv;
    Look(cfg, After(cfg, look), ch);
    Then(cfg, look, false, ch);
  }

  /** The receiver is inside its call after each of these actions, the last excepted. */
  ghost predicate Waiting(cfg: Config, begun: Schedule, more: Schedule)
    requires cfg.Ok()
  {
    forall k :: 0 <= k < |more| ==> !After(cfg, begun + more[..k]).receiver.RIdle?
  }

  lemma {:induction false} WaitingBefore(cfg: Config, begun: Schedule, more: Schedule)
    requires cfg.Ok() && Waiting(cfg, begun, more) && more != []
    ensures Waiting(cfg, begun, more[..|more| - 1]) && !After(cfg, begun + more[..|more| - 1]).receiver.RIdle?
  {
    var last := |more| - 1;
    forall k | 0 <= k < last ensures begun + more[..last][..k] == begun + more[..k] {
      assert more[..last][..k] == more[..k];
    }
  }

  /** Inside a wait nothing is taken; at its end, the next message's count. */
  ghost predicate WaitState(s: State, s': State, blocking: bool) {
    if s'.receiver.RIdle? && (blocking || s'.got != s.got)
    then |s.got| < |s'.sent| && s'.got == s.got + [s'.sent[|s.got|].count]
    else s'.got == s.got && (s'.receiver.RWait? ==> s'.receiver.blocking == blocking)
  }

  lemma WaitOn(cfg: Config, s: State, s1: State, blocking: bool, sends: bool, ch: Choice)
    requires Inv(cfg, s1) && WaitState(s, s1, blocking) && s1.receiver.RWait?
    ensures WaitState(s, Step(cfg, s1, sends, ch), blocking)
  {
    hide Inv, SenderStep, ReceiverStep;
    if s1.fault == NoFault {
      if sends { SenderFrame(cfg, s1, ch); } else { Look(cfg, s1, ch); ReceiverFrame(cfg, s1, ch); }
    }
  }

  /** A blocking wait is over only with the next message's count taken, whatever both sides did meanwhile. */
  lemma {:induction false} WaitOver(cfg: Config, sched: Schedule, blocking: bool, more: Schedule)
    requires cfg.Ok() && Waiting(cfg, sched + [(false, Wait(blocking))], more)
    requires var s := After(cfg, sched); s.receiver.RIdle? && s.fault == NoFault && |s.got| < |s.dests|
    ensures WaitState(After(cfg, sched), After(cfg, sched + [(false, Wait(blocking))] + more), blocking)
  {
    var begun := sched + [(false, Wait(blocking))];
    if more == [] {
      Then(cfg, sched, false, Wait(blocking));
      assert begun + more == begun;
    } else {
      hide *;
      var last := |more| - 1;
      WaitingBefore(cfg, begun, more);
      WaitOver(cfg, sched, blocking, more[..last]);
      EveryRun(cfg, begun + more[..last]);
      WaitOn(cfg, After(cfg, sched), After(cfg, begun + more[..last]), blocking, more[last].0, more[last].1);
      LastOf(cfg, begun, more);
    }
  }

  // ------------------------------------------------------------------ sends

  /** n more of the sender's actions, the receiver running between them. */
  ghost predicate SenderActs(more: Schedule, n: nat)
    decreases |more|
  {
    if more == [] then n == 0
    else
      var last := more[|more| - 1];
      if last.0 then n > 0 && SenderActs(more[..|more| - 1], n - 1) else SenderActs(more[..|more| - 1], n)
  }

  /** Where a message is that has found a request, n of the sender's actions later. */
  predicate CopyStage(pc: SPc, m: Msg, more: bool, n: nat) {
    match n
    case 0 => pc.SCopy? && pc.m == m && pc.more == more
    case 1 => pc == SCount(m, more)
    case _ => pc == if more then SDone else SIdle
  }

  /** Nothing but that message's place has changed for the sender, n of its actions later. */
  predicate CopyState(s: State, s': State, m: Msg, more: bool, n: nat) {
    CopyStage(s'.sender, m, more, n) && s'.sent == s.sent && s'.pushed == (if n == 2 then s.pushed + 1 else s.pushed)
  }

  lemma CopyOn(cfg: Config, s: State, s1: State, m: Msg, more: bool, n: nat, sends: bool, ch: Choice)
    requires n <= 2 && (sends ==> n > 0) && Step(cfg, s1, sends, ch).fault == NoFault
    requires CopyState(s, s1, m, more, if sends then n - 1 else n)
    ensures CopyState(s, Step(cfg, s1, sends, ch), m, more, n)
  {
    if !sends { ReceiverFrame(cfg, s1, ch); }
  }

  lemma FaultStays(cfg: Config, s: State, sends: bool, ch: Choice)
    ensures Step(cfg, s, sends, ch).fault == NoFault ==> s.fault == NoFault
  {
  }

  lemma {:induction false} ActsBefore(more: Schedule, n: nat)
    requires SenderActs(more, n) && more != []
    ensures var last := more[|more| - 1];
            if last.0 then n > 0 && SenderActs(more[..|more| - 1], n - 1) else SenderActs(more[..|more| - 1], n)
  {
  }

  /** With no failed check the copy and the count follow in two of the sender's actions. */
  lemma {:induction false} CopyProceeds(cfg: Config, sched: Schedule, m: Msg, more: bool, acts: Schedule, n: nat)
    requires cfg.Ok() && CopyStage(After(cfg, sched).sender, m, more, 0) && n <= 2 && SenderActs(acts, n)
    requires After(cfg, sched + acts).fault == NoFault
    ensures CopyState(After(cfg, sched), After(cfg, sched + acts), m, more, n)
  {
    if acts == [] {
      assert sched + acts == sched;
    } else {
      hide *;
      var last := |acts| - 1;
      ActsBefore(acts, n);
      LastOf(cfg, sched, acts);
      FaultStays(cfg, After(cfg, sched + acts[..last]), acts[last].0, acts[last].1);
      CopyProceeds(cfg, sched, m, more, acts[..last], if acts[last].0 then n - 1 else n);
      CopyOn(cfg, After(cfg, sched), After(cfg, sched + acts[..last]), m, more, n, acts[last].0, acts[last].1);
    }
  }

  /**
    Enqueue sends at once when a request is there: two of the sender's actions later,
    whatever the receiver does in between, the message is copied, its count queued and
    the call over with message_send_done.  Without one it leaves the message for the wait.
   */
  lemma {:induction false} EnqueueCall(cfg: Config, sched: Schedule, m: Msg, acts: Schedule)
    requires cfg.Ok() && After(cfg, sched).sender.SIdle? && SenderActs(acts, 2)
    requires After(cfg, sched).fault == NoFault && After(cfg, sched + [(true, Enqueue(m))] + acts).fault == NoFault
    ensures var s := After(cfg, sched);
            var tried := After(cfg, sched + [(true, Enqueue(m))]);
            var s' := After(cfg, sched + [(true, Enqueue(m))] + acts);
            && tried.sent == s.sent + [m]
            && if s.requests != [] then s'.sender.SDone? && s'.pushed == s.pushed + 1 && s'.sent == s.sent + [m]
               else tried.sender == SPend(m) && tried.pushed == s.pushed
  {
    Then(cfg, sched, true, Enqueue(m));
    hide After;
    if After(cfg, sched).requests != [] { CopyProceeds(cfg, sched + [(true, Enqueue(m))], m, true, acts, 2); }
  }

  /** A pending message: each look sends it exactly when a request is there, and nothing else ends the call. */
  lemma {:induction false} PendingCall(cfg: Config, sched: Schedule, ch: Choice, acts: Schedule)
    requires cfg.Ok() && After(cfg, sched).sender.SPend? && SenderActs(acts, 2)
    requires After(cfg, sched).fault == NoFault && After(cfg, sched + [(true, ch)] + acts).fault == NoFault
    ensures var s := After(cfg, sched);
            var tried := After(cfg, sched + [(true, ch)]);
            var s' := After(cfg, sched + [(true, ch)] + acts);
            && tried.sent == s.sent
            && if s.requests != [] then s'.sender.SIdle? && s'.pushed == s.pushed + 1 && s'.sent == s.sent
               else tried.sender == s.sender && tried.pushed == s.pushed
  {
    Then(cfg, sched, true, ch);
    hide After;
    var s := After(cfg, sched);
    if s.requests != [] { CopyProceeds(cfg, sched + [(true, ch)], s.sender.m, false, acts, 2); }
  }

  /** After message_send_done the wait is over at its first look, with nothing sent. */
  lemma {:induction false} DoneCall(cfg: Config, sched: Schedule, ch: Choice)
    requires cfg.Ok() && After(cfg, sched).sender.SDone? && After(cfg, sched).fault == NoFault
    ensures var s, s' := After(cfg, sched), After(cfg, sched + [(true, ch)]);
            s'.sender.SIdle? && s'.pushed == s.pushed && s'.sent == s.sent
  {
    Then(cfg, sched, true, ch);
    hide After;
  }

  predicate CallOver(pc: SPc) { pc.SIdle? || pc.SDone? }

  /** The sender is inside its call after each of these actions, the last excepted. */
  ghost predicate Sending(cfg: Config, begun: Schedule, more: Schedule)
    requires cfg.Ok()
  {
    forall k :: 0 <= k < |more| ==> !CallOver(After(cfg, begun + more[..k]).sender)
  }

  lemma {:induction false} SendingBefore(cfg: Config, begun: Schedule, more: Schedule)
    requires cfg.Ok() && Sending(cfg, begun, more) && more != []
    ensures Sending(cfg, begun, more[..|more| - 1]) && !CallOver(After(cfg, begun + more[..|more| - 1]).sender)
  {
    var last := |more| - 1;
    forall k | 0 <= k < last ensures begun + more[..last][..k] == begun + more[..k] {
      assert more[..last][..k] == more[..k];
    }
  }

  /** Inside a call the message's count is not queued; when the call is over, it has been. */
  ghost predicate SendState(s: State, s': State, m: Msg, blocking: bool) {
    && s'.sent == s.sent + [m]
    && if CallOver(s'.sender) then s'.pushed == s.pushed + 1 && (blocking ==> s'.sender.SIdle?)
       else s'.pushed == s.pushed && s'.sender.m == m && (blocking && !s'.sender.SPend? ==> !s'.sender.more)
  }

  lemma SendOn(cfg: Config, s: State, s1: State, m: Msg, blocking: bool, sends: bool, ch: Choice)
    requires SendState(s, s1, m, blocking) && !CallOver(s1.sender)
    ensures SendState(s, Step(cfg, s1, sends, ch), m, blocking)
  {
    if !sends { ReceiverFrame(cfg, s1, ch); }
  }

  /**
    A call that sends is over only when its count has been queued, whatever both sides
    did meanwhile; a blocking one returns with nothing left to wait for.
   */
  lemma {:induction false} SendOver(cfg: Config, sched: Schedule, ch: Choice, more: Schedule)
    requires cfg.Ok() && Sends(ch) && After(cfg, sched).sender.SIdle? && After(cfg, sched).fault == NoFault
    requires Sending(cfg, sched + [(true, ch)], more)
    ensures SendState(After(cfg, sched), After(cfg, sched + [(true, ch)] + more), ch.m, ch.EnqueueBlocking?)
  {
    var begun := sched + [(true, ch)];
    if more == [] {
      Then(cfg, sched, true, ch);
      assert begun + more == begun;
    } else {
      hide *;
      var last := |more| - 1;
      SendingBefore(cfg, begun, more);
      SendOver(cfg, sched, ch, more[..last]);
      SendOn(cfg, After(cfg, sched), After(cfg, begun + more[..last]), ch.m, ch.EnqueueBlocking?,
             more[last].0, more[last].1);
      LastOf(cfg, begun, more);
    }
  }
}
