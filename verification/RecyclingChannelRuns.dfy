/** What a recycling channel promises over every run, and what its destructor then does. */
module RecyclingChannelRuns {
  import opened Delivery
  import opened Options
  import opened Buffers
  import opened RecyclingChannel

  type Schedule = seq<(bool, Choice)>

  ghost function After(cfg: Config, sched: Schedule): State {
    if sched == [] then Init()
    else Step(cfg, After(cfg, sched[..|sched| - 1]), sched[|sched| - 1].0, sched[|sched| - 1].1)
  }

  lemma {:induction false} EveryRun(cfg: Config, sched: Schedule)
    ensures Inv(cfg, After(cfg, sched))
  {
    if sched != [] {
      hide Inv, Step;
      var before := sched[..|sched| - 1];
      EveryRun(cfg, before);
      StepInv(cfg, After(cfg, before), sched[|sched| - 1].0, sched[|sched| - 1].1);
    }
  }

  lemma Nothing(cfg: Config)
    ensures After(cfg, []) == Init()
  {
  }

  lemma {:induction false} Next(cfg: Config, sched: Schedule, i: nat)
    requires i < |sched|
    ensures After(cfg, sched[..i + 1]) == Step(cfg, After(cfg, sched[..i]), sched[i].0, sched[i].1)
  {
    assert sched[..i + 1][..i] == sched[..i];
  }

  /** Every live buffer has exactly one owner, no buffer is freed twice, and at most capacity + 2 are live. */
  lemma {:induction false} OneOwnerEach(cfg: Config, sched: Schedule, b: Buf)
    ensures var s := After(cfg, sched);
            && Owned(s)[b] == (if b in s.live then 1 else 0)
            && !s.doubleFree
            && |s.live| <= cfg.capacity + 2
  {
    EveryRun(cfg, sched);
    OwnedOnce(After(cfg, sched), b);
  }

  /** Messages arrive in order and whole. */
  lemma {:induction false} Fifo(cfg: Config, sched: Schedule)
    ensures var s := After(cfg, sched);
            && |s.received| <= |s.sent| && s.received == s.sent[..|s.received|]
            && (s.sender.SIdle? && s.receiver.RIdle? ==> |s.queue| == |s.sent| - |s.received|)
  {
    EveryRun(cfg, sched);
    hide Owned;
  }

  /** Between Dequeues the receiver's pointer is to a live buffer holding its last message, and it alone owns it. */
  lemma {:induction false} ReceivedBufferStable(cfg: Config, sched: Schedule, i: nat)
    requires After(cfg, sched).receiver.RIdle? && After(cfg, sched).received != []
    ensures var s := After(cfg, sched);
            var m := s.received[|s.received| - 1];
            && s.raw.Some? && s.raw.value in s.live
            && s.live[s.raw.value] == Some(m.payload) && s.count == m.count
            && (s.sender.SFill? || s.sender.SWrite? ==> s.sender.b != s.raw.value)
            && (i < |s.queue| ==> s.queue[i].buf != s.raw.value)
            && (i < |s.free| ==> s.free[i] != s.raw.value)
  {
    EveryRun(cfg, sched);
    hide Bufs;
    var s := After(cfg, sched);
    OwnedOnce(s, s.raw.value);
    OthersKeep(s, s.raw.value);
    assert ReceiverHolds(s)[s.raw.value] == 1;
    if i < |s.free| { assert s.free[i] in multiset(s.free); }
    if s.sender.SFill? { assert SenderHolds(s)[s.sender.b] == 1; }
  }

  /** A receiver at an empty queue and a sender at a full one cannot wait for each other. */
  lemma {:induction false} NeverBothStuck(cfg: Config, sched: Schedule)
    requires cfg.capacity >= 1
    ensures var s := After(cfg, sched);
            s.sender.SWrite? && s.receiver.RFront? ==>
              SenderStep(cfg, s, Go).sender.SIdle? || ReceiverStep(cfg, s).receiver.RPop?
  {
    EveryRun(cfg, sched);
    hide Owned;
    var s := After(cfg, sched);
    if s.receiver.RFront? { FrontKeeps(cfg, s); }
  }

  // ------------------------------------------------------------------ destruction

  lemma {:induction false} FreesTheList(s: State)
    requires multiset(s.free) == multiset(s.live.Keys) && !s.doubleFree
    ensures FreeAll(s).live == map[] && !FreeAll(s).doubleFree
    decreases |s.free|
  {
    if s.free == [] {
      assert |multiset(s.live.Keys)| == 0;
    } else {
      var b := s.free[0];
      HeadOut(s.free);
      assert b in multiset(s.live.Keys);
      var keys := s.live.Keys - {b};
      assert s.live.Keys == keys + {b};
      OneMore(keys, b);
      var s' := Free(s.(free := s.free[1..]), b);
      assert s'.live.Keys == keys;
      OneLess(multiset(s.free[1..]), multiset(keys), b);
      FreesTheList(s');
    }
  }

  /** With as many receives as sends the destructor frees every live buffer exactly once, and otherwise its check fires. */
  lemma {:induction false} DestroyedOnce(cfg: Config, sched: Schedule)
    requires var s := After(cfg, sched); s.sender.SIdle? && s.receiver.RIdle?
    ensures var s := After(cfg, sched);
            && (s.queue == [] <==> |s.sent| == |s.received|)
            && (|s.sent| == |s.received| ==> Destroy(s).live == map[] && !Destroy(s).doubleFree)
  {
    EveryRun(cfg, sched);
    hide Inv, Destroy, Owned;
    var s := After(cfg, sched);
    Fifo(cfg, sched);
    if s.queue == [] { DestroyIdle(cfg, s); }
  }

  lemma DestroyIdle(cfg: Config, s: State)
    requires Inv(cfg, s) && s.sender.SIdle? && s.receiver.RIdle? && s.queue == []
    ensures Destroy(s).live == map[] && !Destroy(s).doubleFree
  {
    hide FreeAll, Owned, QueueOk, ReceiverOk;
    IdleOwned(s);
    if s.raw.Some? {
      var b := s.raw.value;
      OwnedOnce(s, b);
      var keys := s.live.Keys - {b};
      assert b in s.live && s.live.Keys == keys + {b} && Free(s, b).live.Keys == keys;
      OneMore(keys, b);
      OneLess(multiset(s.free), multiset(keys), b);
      FreesTheList(Free(s, b));
    } else {
      FreesTheList(s);
    }
  }

  /** With an empty queue and both parties idle, only the receiver's buffer and the free list are left. */
  lemma IdleOwned(s: State)
    requires s.sender.SIdle? && s.receiver.RIdle? && s.queue == []
    ensures Owned(s) == multiset(s.free) + (if s.raw.Some? then multiset{s.raw.value} else multiset{})
  {
    assert Bufs(Behind(s)) == [];
  }
}
