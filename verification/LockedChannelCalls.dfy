/**
  What a caller of the locked channel gets from each call: every message it passes is
  sent, in call order; a Wait delivers exactly when a message is there; and a buffer is
  allocated only when the pool is empty, so that few are ever alive.
 */
module LockedChannelCalls {
  import opened Delivery
  import opened Options
  import opened Buffers
  import opened LockedChannel
  import opened LockedChannelRuns

  /** The critical section can be carried out: a receiver waits, or there is room and a buffer. */
  predicate CanSend(cfg: Config, s: State, malloc: Buf) {
    s.fault == NoFault && (s.ready || (|s.queue| < cfg.capacity && (s.free != [] || malloc !in s.live)))
  }

  /** The messages of the Enqueue calls that could be carried out, in call order. */
  ghost function Called(cfg: Config, sched: Schedule): seq<Msg> {
    if sched == [] then []
    else
      var before, ch := sched[..|sched| - 1], sched[|sched| - 1];
      Called(cfg, before) + if ch.Enqueue? && CanSend(cfg, After(cfg, before), ch.malloc) then [ch.m] else []
  }

  lemma StepSends(cfg: Config, s: State, ch: Choice)
    requires Inv(cfg, s)
    ensures Step(cfg, s, ch).sent == s.sent + if ch.Enqueue? && CanSend(cfg, s, ch.malloc) then [ch.m] else []
  {
    hide Owned, Ordered;
  }

  /** What counts as sent is what the caller passed: no message is altered, dropped or invented. */
  lemma {:induction false} SentIsCalled(cfg: Config, sched: Schedule)
    ensures After(cfg, sched).sent == Called(cfg, sched)
  {
    if sched != [] {
      hide Step, Inv;
      var before := sched[..|sched| - 1];
      SentIsCalled(cfg, before);
      EveryRun(cfg, before);
      StepSends(cfg, After(cfg, before), sched[|sched| - 1]);
    }
  }

  /** So the receiver that waits for each Dequeue gets the callers' messages, in call order. */
  lemma {:induction false} CalledFifo(cfg: Config, sched: Schedule)
    requires After(cfg, sched).waitedEach
    ensures var s, called := After(cfg, sched), Called(cfg, sched);
            && |s.received| <= |called| && s.received == called[..|s.received|]
            && (s.queue == [] && s.pending == 0 ==> s.received == called)
  {
    hide Inv;
    SentIsCalled(cfg, sched);
    Fifo(cfg, sched);
  }

  lemma Then(cfg: Config, sched: Schedule, ch: Choice)
    ensures After(cfg, sched + [ch]) == Step(cfg, After(cfg, sched), ch)
  {
    assert (sched + [ch])[..|sched|] == sched;
  }

  /** A Wait for the Dequeue just made delivers the next message if any has been sent, and otherwise goes on waiting. */
  lemma {:induction false} WaitDelivers(cfg: Config, sched: Schedule)
    requires var s := After(cfg, sched); s.waitedEach && s.pending > 0 && s.fault == NoFault
    ensures var s, s' := After(cfg, sched), After(cfg, sched + [Wait]);
            if |s.received| < |s.sent|
            then s'.received == s.received + [s.sent[|s.received|]] && s'.pending == 0
            else s' == s
  {
    EveryRun(cfg, sched);
    Then(cfg, sched, Wait);
    hide Owned, After;
    WaitTakes(cfg, After(cfg, sched));
  }

  lemma WaitTakes(cfg: Config, s: State)
    requires Safe(cfg, s) && Ordered(cfg, s) && s.pending > 0
    ensures var s' := WaitStep(s);
            if |s.received| < |s.sent|
            then s'.received == s.received + [s.sent[|s.received|]] && s'.pending == 0
            else s' == s
  {
    hide Owned;
    if Handed(s) == 1 { assert Msg(s.count, s.live[s.raw].value) == s.sent[|s.received|]; }
  }

  /** The receiver's own buffer, a full queue, the buffer in use and the pool: live buffers, counted. */
  lemma LiveCount(cfg: Config, s: State)
    requires Owned(cfg.home, s.raw, s.queue, s.free) == multiset(s.live.Keys)
    ensures |s.live| == 1 + |s.queue| + (if s.raw != cfg.home then 1 else 0) + |s.free|
  {
    assert |multiset(s.live.Keys)| == |s.live.Keys| == |s.live|;
    assert |multiset(Bufs(s.queue))| == |s.queue|;
  }

  lemma LiveStep(cfg: Config, s: State, ch: Choice)
    requires Inv(cfg, s)
    ensures |Step(cfg, s, ch).live| <= |s.live| || |Step(cfg, s, ch).live| <= cfg.capacity + 2
    ensures Step(cfg, s, ch).live.Keys != s.live.Keys ==> ch.Enqueue? && !s.ready && s.free == []
  {
    hide Owned, Ordered;
    LiveCount(cfg, s);
    Disjoint(cfg, s, 0);
    var s' := Step(cfg, s, ch);
    if ch.Enqueue? && CanSend(cfg, s, ch.malloc) {
      var b := if s.ready then cfg.home else if s.free != [] then s.free[|s.free| - 1] else ch.malloc;
      assert s'.live.Keys == s.live.Keys + {b};
      assert |s'.live| == |s'.live.Keys| && |s.live| == |s.live.Keys|;
      if b in s.live { assert s'.live.Keys == s.live.Keys; }
    }
  }

  /** At most capacity + 2 buffers are ever alive: one is allocated only when the pool is empty. */
  lemma {:induction false} FewLive(cfg: Config, sched: Schedule)
    ensures |After(cfg, sched).live| <= cfg.capacity + 2
  {
    if sched != [] {
      hide Step, Inv;
      var before := sched[..|sched| - 1];
      FewLive(cfg, before);
      EveryRun(cfg, before);
      LiveStep(cfg, After(cfg, before), sched[|sched| - 1]);
    } else {
      hide Inv;
      assert |Init(cfg).live| == 1;
    }
  }
}
