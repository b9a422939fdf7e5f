/** What a buffered channel promises over every run of its sender and its receiver. */
module BufferedChannelRuns {
  import opened Delivery
  import opened RingIndices
  import opened BufferedChannel

  /** Who moves (the sender, or else the receiver), and what it calls when it is between calls. */
  type Schedule = seq<(bool, Choice)>

  ghost function After(cfg: Config, sched: Schedule): (s: State)
    requires cfg.Ok()
    ensures |s.slots| == cfg.Size()
  {
    if sched == [] then Init(cfg)
    else Step(cfg, After(cfg, sched[..|sched| - 1]), sched[|sched| - 1].0, sched[|sched| - 1].1)
  }

  lemma {:induction false} EveryRun(cfg: Config, sched: Schedule)
    requires cfg.Ok()
    ensures Inv(cfg, After(cfg, sched))
  {
    if sched == [] {
      InitInv(cfg);
    } else {
      hide Inv, Step;
      var before := sched[..|sched| - 1];
      EveryRun(cfg, before);
      StepInv(cfg, After(cfg, before), sched[|sched| - 1].0, sched[|sched| - 1].1);
    }
  }

  lemma InitInv(cfg: Config)
    requires cfg.Ok()
    ensures Inv(cfg, Init(cfg))
  {
    assert Replay([], []) == map[];
  }

  /** Delivery is in order and loses nothing: received is a prefix of sent, the rest is in the queue or in hand. */
  lemma {:induction false} Fifo(cfg: Config, sched: Schedule)
    requires cfg.Ok()
    ensures var s := After(cfg, sched);
            && |s.received| <= |s.sent| && s.received == s.sent[..|s.received|]
            && s.w <= |s.sent| <= s.w + 1
            && (s.sender.SIdle? || s.sender.SDone? ==> s.w == |s.sent|)
            && s.w - s.r == s.w - |s.received| + (if s.okToPop then 1 else 0)
            && s.w - s.r <= cfg.maxBufferedMsgs
  {
    EveryRun(cfg, sched);
  }

  /** A successful wait takes the next message in send order, whole. */
  lemma {:induction false} WaitTakesNext(cfg: Config, sched: Schedule)
    requires cfg.Ok() && After(cfg, sched).receiver.RRead?
    ensures var s := After(cfg, sched);
            var s' := After(cfg, sched + [(false, Go)]);
            && |s.received| < |s.sent|
            && s'.received == s.received + [s.sent[|s.received|]]
            && s'.okToPop && s'.receiver.RIdle?
  {
    EveryRun(cfg, sched);
    var s := After(cfg, sched);
    assert (sched + [(false, Go)])[..|sched|] == sched;
    ReceiveKeeps(cfg, s, Go);
  }

  /** The slot handed to the receiver holds its message until the receiver's next call. */
  lemma {:induction false} HandedSlotStable(cfg: Config, sched: Schedule)
    requires cfg.Ok()
    ensures var s := After(cfg, sched);
            s.okToPop ==>
              && |s.received| > 0 && s.r < s.w
              && s.slots[s.r % cfg.Size()] == Full(s.received[|s.received| - 1])
              && (Filling(s.sender) ==> s.w % cfg.Size() != s.r % cfg.Size())
  {
    EveryRun(cfg, sched);
    var s := After(cfg, sched);
    if s.okToPop && Filling(s.sender) { DifferentSlots(cfg.Size(), s.r, s.w); }
  }

  lemma {:induction false} OkToPopFrom(cfg: Config, sched: Schedule, more: Schedule)
    requires cfg.Ok() && After(cfg, sched).okToPop
    requires forall i :: 0 <= i < |more| ==> more[i].0
    ensures After(cfg, sched + more).okToPop
    ensures After(cfg, sched + more).r == After(cfg, sched).r
    ensures After(cfg, sched + more).received == After(cfg, sched).received
  {
    EveryRun(cfg, sched);
    hide Inv, SenderStep;
    if more == [] {
      assert sched + more == sched;
    } else {
      SenderFrame(cfg, After(cfg, sched + more[..|more| - 1]), more[|more| - 1].1);
      OkToPopFrom(cfg, sched, more[..|more| - 1]);
      assert (sched + more)[..|sched + more| - 1] == sched + more[..|more| - 1];
    }
  }

  /** However far the sender runs on, the message in hand does not change. */
  lemma {:induction false} SenderCannotDisturb(cfg: Config, sched: Schedule, more: Schedule)
    requires cfg.Ok() && After(cfg, sched).okToPop
    requires forall i :: 0 <= i < |more| ==> more[i].0
    ensures var s, s' := After(cfg, sched), After(cfg, sched + more);
            && s.received != []
            && s'.slots[s.r % cfg.Size()] == s.slots[s.r % cfg.Size()] == Full(s.received[|s.received| - 1])
  {
    hide Inv, After;
    OkToPopFrom(cfg, sched, more);
    HandedSlotStable(cfg, sched);
    HandedSlotStable(cfg, sched + more);
  }

  /** User buffers are filled in the order they were posted, and the ring of them never overflows. */
  lemma {:induction false} UserBuffersInOrder(cfg: Config, sched: Schedule, b: Buf)
    requires cfg.Ok() && cfg.userBufs
    ensures var s := After(cfg, sched);
            && |s.received| <= |s.dests| == s.dequeues
            && s.mem == Replay(s.dests, s.received)
            && s.userBufs == s.dests[|s.received|..]
            && |s.userBufs| < s.capacity
            && var s' := DequeueStep(cfg, s, b); s'.userBufs == s.userBufs + [b] && |s'.userBufs| < s'.capacity
  {
    EveryRun(cfg, sched);
  }

  /** A received message is in its user buffer for as long as that buffer is not filled again. */
  lemma {:induction false} UserBufferHolds(cfg: Config, sched: Schedule, i: nat)
    requires cfg.Ok() && cfg.userBufs && i < |After(cfg, sched).received|
    ensures var s := After(cfg, sched);
            && |s.received| <= |s.dests| && |s.received| <= |s.sent|
            && ((forall k :: i < k < |s.received| ==> s.dests[k] != s.dests[i]) ==>
                  s.dests[i] in s.mem && s.mem[s.dests[i]] == s.sent[i])
  {
    EveryRun(cfg, sched);
    var s := After(cfg, sched);
    if forall k :: i < k < |s.received| ==> s.dests[k] != s.dests[i] { ReplayKeeps(s.dests, s.received, i); }
  }

  /** The destructor's two checks: exactly one entry left, and it is the one in hand. */
  predicate DestructorChecksPass(s: State) { s.w - s.r == 1 && s.okToPop }

  /** They pass exactly when sends equal receives and the receiver's last call was a successful wait. */
  lemma {:induction false} DestructorChecks(cfg: Config, sched: Schedule)
    requires cfg.Ok()
    requires var s := After(cfg, sched); (s.sender.SIdle? || s.sender.SDone?) && s.receiver.RIdle?
    ensures var s := After(cfg, sched);
            DestructorChecksPass(s) <==> |s.sent| == |s.received| && s.last == DidWait(true)
  {
    EveryRun(cfg, sched);
  }

  /** The message in front is there whenever it is to be popped, so the pop's own assertions hold. */
  lemma {:induction false} PopHasFront(cfg: Config, sched: Schedule)
    requires cfg.Ok()
    ensures var s := After(cfg, sched); s.okToPop ==> s.r != s.w && s.r != s.wCached
  {
    EveryRun(cfg, sched);
  }

  /** The sender cannot find the ring full while the receiver finds it empty. */
  lemma {:induction false} NeverBothStuck(cfg: Config, sched: Schedule)
    requires cfg.Ok()
    ensures var s := After(cfg, sched);
            s.sender.SPend? && s.receiver.RFront? ==>
              SenderStep(cfg, s, Go).sender.SSpace? || ReceiverStep(cfg, s, Go).receiver.RRead?
  {
    EveryRun(cfg, sched);
  }

  /** The cached indices never mislead: no room means a full ring, and no message an empty one. */
  lemma {:induction false} CachesAreExact(cfg: Config, sched: Schedule, m: Msg, more: bool, ch: Choice)
    requires cfg.Ok()
    ensures var s := After(cfg, sched);
            && (!Filling(s.sender) ==> (TrySpace(cfg, s, m, more).sender.SPend? <==> s.w - s.r == cfg.maxBufferedMsgs))
            && (s.receiver.RFront? ==> (ReceiverStep(cfg, s, ch).receiver.RRead? <==> s.r < s.w))
  {
    EveryRun(cfg, sched);
  }
}
