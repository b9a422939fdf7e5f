/**
  A channel guarded by one lock: a waiting receiver is sent its message straight into
  its own buffer; otherwise the sender queues a pointer to a pooled copy, which the
  receiver later uses in place and returns to the pool at its next Dequeue.
 */
module LockedChannel {
  import opened Delivery
  import opened Options
  import opened Buffers

  /** `home` is recv_rt_buf's address. */
  datatype Config = Config(capacity: nat, home: Buf)

  /** The program's own checks. */
  datatype Fault = NoFault | QueueFull | QueueNotEmpty | SameBuffer

  datatype State = State(
    ready: bool,                   // receiver_ready_for_copy
    completed: bool,               // dequeue_completed_recv
    copied: bool,                  // sender_done_direct_copy_cf
    unreceived: nat,               // num_unreceived_payloads
    queue: seq<Entry>,             // buffered_payloads
    free: seq<Buf>,                // free_buffers, top last
    raw: Buf, count: nat,          // the receive channel's buffer and received count
    live: map<Buf, Option<Payload>>,
    pending: nat,                  // Dequeues not yet waited for
    fault: Fault,
    // history
    sent: seq<Msg>, received: seq<Msg>,
    waitedEach: bool)              // so far every Dequeue was waited for before the next

  datatype Choice = Enqueue(m: Msg, malloc: Buf) | Dequeue | Wait

  /** EnqueueImpl, one critical section. */
  function EnqueueStep(cfg: Config, s: State, m: Msg, malloc: Buf): State {
    if s.ready then
      if s.unreceived > 0 then s.(fault := QueueNotEmpty)
      else s.(count := m.count, live := s.live[cfg.home := Some(m.payload)], ready := false, copied := true,
              sent := s.sent + [m])
    else if s.unreceived >= cfg.capacity then s.(fault := QueueFull)
    else if s.free != [] then
      var b := s.free[|s.free| - 1];
      Push(s.(free := s.free[..|s.free| - 1]), m, b)
    else if malloc !in s.live then Push(s, m, malloc)
    else s
  }

  function Push(s: State, m: Msg, b: Buf): State {
    s.(live := s.live[b := Some(m.payload)], queue := s.queue + [Entry(m.count, b)],
       unreceived := s.unreceived + 1, sent := s.sent + [m])
  }

  /** The last buffer used in place goes back to the pool. */
  function GiveBack(cfg: Config, s: State): State {
    s.(free := if s.raw != cfg.home then s.free + [s.raw] else s.free,
       pending := s.pending + 1, waitedEach := s.waitedEach && s.pending == 0)
  }

  /** Wait for a direct copy when nothing is queued, or else use the front. */
  function Take(cfg: Config, s: State): State {
    if s.unreceived == 0 then s.(copied := false, ready := true, completed := false, raw := cfg.home)
    else if s.queue == [] || s.raw == s.queue[0].buf then s.(fault := SameBuffer)
    else s.(queue := s.queue[1..], unreceived := s.unreceived - 1, count := s.queue[0].count, raw := s.queue[0].buf,
            completed := true)
  }

  /** Dequeue, one critical section. */
  function DequeueStep(cfg: Config, s: State): State { Take(cfg, GiveBack(cfg, s)) }

  /** Wait, and the receiver's look at its message. */
  function WaitStep(s: State): State {
    if s.pending > 0 && (s.completed || s.copied) then
      var p := if s.raw in s.live then s.live[s.raw] else None;
      if p.None? then s.(pending := s.pending - 1)
      else s.(pending := s.pending - 1, received := s.received + [Msg(s.count, p.value)])
    else s
  }

  function Step(cfg: Config, s: State, ch: Choice): State {
    if s.fault != NoFault then s
    else match ch
    case Enqueue(m, malloc) => EnqueueStep(cfg, s, m, malloc)
    case Dequeue => DequeueStep(cfg, s)
    case Wait => WaitStep(s)
  }

  function Init(cfg: Config): State {
    State(false, false, false, 0, [], [], cfg.home, 0, map[cfg.home := None], 0, NoFault, [], [], true)
  }

  // ------------------------------------------------------------------ who owns which buffer

  function InUse(home: Buf, raw: Buf): multiset<Buf> {
    if raw != home then multiset{raw} else multiset{}
  }

  /** The receiver's own buffer, the queue, the buffer in use and the pool. */
  function Owned(home: Buf, raw: Buf, queue: seq<Entry>, free: seq<Buf>): multiset<Buf> {
    multiset{home} + multiset(Bufs(queue)) + InUse(home, raw) + multiset(free)
  }

  /** Holds of every run, however Dequeue is called. */
  predicate Safe(cfg: Config, s: State) {
    && Owned(cfg.home, s.raw, s.queue, s.free) == multiset(s.live.Keys)
    && s.unreceived == |s.queue| <= cfg.capacity
    && (s.ready ==> s.queue == [] && s.raw == cfg.home)
    && (s.fault == NoFault || s.fault == QueueFull)
    && (s.fault == QueueFull ==> |s.queue| == cfg.capacity)
  }

  /** Messages taken off the queue or copied directly, and not yet waited for. */
  function Handed(s: State): nat { if s.pending > 0 && (s.completed || s.copied) then 1 else 0 }

  /** Holds while every Dequeue is waited for. */
  predicate Ordered(cfg: Config, s: State) {
    && |s.sent| == |s.received| + Handed(s) + |s.queue|
    && s.received == s.sent[..|s.received|]
    && s.pending <= 1 && (s.pending == 0 ==> !s.ready)
    && (s.pending > 0 && !s.completed ==> s.copied == !s.ready)
    && (s.completed ==> !s.ready)
    && (Handed(s) == 1 ==> Carries(s.live, Entry(s.count, s.raw), s.sent[|s.received|]))
    && (s.pending == 0 && s.received != [] ==>
          Carries(s.live, Entry(s.count, s.raw), s.received[|s.received| - 1]))
    && (forall i :: 0 <= i < |s.queue| ==> Carries(s.live, s.queue[i], s.sent[|s.received| + Handed(s) + i]))
  }

  predicate Inv(cfg: Config, s: State) {
    Safe(cfg, s) && (s.waitedEach ==> Ordered(cfg, s))
  }

  // ------------------------------------------------------------------ ownership

  lemma OwnedOnce(cfg: Config, s: State, b: Buf)
    requires Owned(cfg.home, s.raw, s.queue, s.free) == multiset(s.live.Keys)
    ensures Owned(cfg.home, s.raw, s.queue, s.free)[b] == if b in s.live then 1 else 0
  {
  }

  /** The buffers in the queue, in the pool, in use and the receiver's own are all different. */
  lemma Disjoint(cfg: Config, s: State, i: nat)
    requires Owned(cfg.home, s.raw, s.queue, s.free) == multiset(s.live.Keys)
    ensures cfg.home in s.live && s.raw in s.live
    ensures i < |s.queue| ==> s.queue[i].buf in s.live && s.queue[i].buf != cfg.home && s.queue[i].buf != s.raw
    ensures s.free != [] ==>
              var top := s.free[|s.free| - 1];
              top in s.live && top != cfg.home && top != s.raw && (i < |s.queue| ==> top != s.queue[i].buf)
  {
    OwnedOnce(cfg, s, cfg.home);
    OwnedOnce(cfg, s, s.raw);
    if s.raw != cfg.home { assert InUse(cfg.home, s.raw)[s.raw] == 1; }
    if i < |s.queue| {
      var b := s.queue[i].buf;
      assert Bufs(s.queue)[i] == b && b in multiset(Bufs(s.queue));
      OwnedOnce(cfg, s, b);
    }
    if s.free != [] {
      var top := s.free[|s.free| - 1];
      assert top in multiset(s.free);
      OwnedOnce(cfg, s, top);
    }
  }

  lemma PopOwned(cfg: Config, s: State, m: Msg)
    requires Owned(cfg.home, s.raw, s.queue, s.free) == multiset(s.live.Keys) && s.free != []
    ensures var s' := Push(s.(free := s.free[..|s.free| - 1]), m, s.free[|s.free| - 1]);
            Owned(cfg.home, s'.raw, s'.queue, s'.free) == Owned(cfg.home, s.raw, s.queue, s.free) && s'.live.Keys == s.live.Keys
  {
    var b := s.free[|s.free| - 1];
    var s' := Push(s.(free := s.free[..|s.free| - 1]), m, b);
    Disjoint(cfg, s, 0);
    assert s.free == s'.free + [b];
    assert Bufs(s'.queue) == Bufs(s.queue) + [b];
  }

  lemma MallocOwned(cfg: Config, s: State, m: Msg, b: Buf)
    requires Owned(cfg.home, s.raw, s.queue, s.free) == multiset(s.live.Keys) && b !in s.live
    ensures var s' := Push(s, m, b); Owned(cfg.home, s'.raw, s'.queue, s'.free) == multiset(s'.live.Keys)
  {
    var s' := Push(s, m, b);
    assert Bufs(s'.queue) == Bufs(s.queue) + [b];
    assert Owned(cfg.home, s'.raw, s'.queue, s'.free) == Owned(cfg.home, s.raw, s.queue, s.free) + multiset{b};
    hide Owned;
    assert s'.live.Keys == s.live.Keys + {b};
    OneMore(s.live.Keys, b);
  }

  lemma EnqueueSafe(cfg: Config, s: State, m: Msg, malloc: Buf)
    requires Safe(cfg, s) && s.fault == NoFault
    ensures Safe(cfg, EnqueueStep(cfg, s, m, malloc))
  {
    hide Owned, Push;
    Disjoint(cfg, s, 0);
    if s.ready {
      DirectOwned(cfg, s, m);
    } else if s.unreceived < cfg.capacity {
      PushSizes(s, m, malloc);
      if s.free != [] {
        PushSizes(s.(free := s.free[..|s.free| - 1]), m, s.free[|s.free| - 1]);
        PopOwned(cfg, s, m);
      } else if malloc !in s.live {
        MallocOwned(cfg, s, m, malloc);
      }
    }
  }

  lemma PushSizes(s: State, m: Msg, b: Buf)
    ensures var s' := Push(s, m, b);
            && |s'.queue| == |s.queue| + 1 && s'.unreceived == s.unreceived + 1
            && s'.ready == s.ready && s'.raw == s.raw && s'.fault == s.fault
  {
  }

  lemma DirectOwned(cfg: Config, s: State, m: Msg)
    requires Owned(cfg.home, s.raw, s.queue, s.free) == multiset(s.live.Keys) && cfg.home in s.live
    ensures var s' := s.(count := m.count, live := s.live[cfg.home := Some(m.payload)], ready := false, copied := true,
                         sent := s.sent + [m]);
            Owned(cfg.home, s'.raw, s'.queue, s'.free) == multiset(s'.live.Keys)
  {
    var live := s.live[cfg.home := Some(m.payload)];
    assert live.Keys == s.live.Keys;
  }

  lemma DequeueSafe(cfg: Config, s: State)
    requires Safe(cfg, s) && s.fault == NoFault
    ensures Safe(cfg, DequeueStep(cfg, s))
    ensures DequeueStep(cfg, s).fault == NoFault
  {
    hide Owned;
    Disjoint(cfg, s, 0);
    DequeueOwned(cfg, s);
  }

  lemma DequeueOwned(cfg: Config, s: State)
    requires s.unreceived == |s.queue| && (s.queue != [] ==> s.queue[0].buf != cfg.home && s.queue[0].buf != s.raw)
    ensures var s' := DequeueStep(cfg, s);
            Owned(cfg.home, s'.raw, s'.queue, s'.free) == Owned(cfg.home, s.raw, s.queue, s.free)
  {
    hide Bufs;
    if s.queue != [] { TailBufs(s.queue); }
  }

  // ------------------------------------------------------------------ order

  lemma PushOrdered(cfg: Config, s: State, m: Msg, b: Buf)
    requires Ordered(cfg, s) && !s.ready && b != s.raw
    requires forall i :: 0 <= i < |s.queue| ==> s.queue[i].buf != b
    ensures Ordered(cfg, Push(s, m, b))
  {
    var s' := Push(s, m, b);
    forall i | 0 <= i < |s'.queue| ensures Carries(s'.live, s'.queue[i], s'.sent[|s'.received| + Handed(s') + i]) {
      if i < |s.queue| { assert Carries(s.live, s.queue[i], s.sent[|s.received| + Handed(s) + i]); }
    }
  }

  lemma EnqueueOrdered(cfg: Config, s: State, m: Msg, malloc: Buf)
    requires Safe(cfg, s) && Ordered(cfg, s)
    ensures Ordered(cfg, EnqueueStep(cfg, s, m, malloc))
  {
    hide Owned, Push;
    Disjoint(cfg, s, 0);
    if s.ready {
      assert s.queue == [];
    } else if s.unreceived < cfg.capacity {
      var b := if s.free != [] then s.free[|s.free| - 1] else malloc;
      if s.free != [] || malloc !in s.live {
        forall i | 0 <= i < |s.queue| ensures s.queue[i].buf != b { Disjoint(cfg, s, i); }
        PushOrdered(cfg, if s.free != [] then s.(free := s.free[..|s.free| - 1]) else s, m, b);
      }
    }
  }

  lemma DequeueOrdered(cfg: Config, s: State)
    requires Safe(cfg, s) && Ordered(cfg, s) && s.pending == 0 && s.fault == NoFault
    ensures Ordered(cfg, DequeueStep(cfg, s))
  {
    hide Owned;
    Disjoint(cfg, s, 0);
    var s' := DequeueStep(cfg, s);
    forall i | 0 <= i < |s'.queue| ensures Carries(s'.live, s'.queue[i], s'.sent[|s'.received| + Handed(s') + i]) {
      assert Carries(s.live, s.queue[i + 1], s.sent[|s.received| + Handed(s) + (i + 1)]);
    }
    if s.queue != [] { assert Carries(s.live, s.queue[0], s.sent[|s.received| + Handed(s) + 0]); }
  }

  lemma WaitOrdered(cfg: Config, s: State)
    requires Ordered(cfg, s)
    ensures Ordered(cfg, WaitStep(s))
  {
    var s' := WaitStep(s);
    if Handed(s) == 1 {
      assert Msg(s.count, s.live[s.raw].value) == s.sent[|s.received|];
      forall i | 0 <= i < |s'.queue| ensures Carries(s'.live, s'.queue[i], s'.sent[|s'.received| + Handed(s') + i]) {
        assert Carries(s.live, s.queue[i], s.sent[|s.received| + Handed(s) + i]);
      }
    }
  }

  lemma StepInv(cfg: Config, s: State, ch: Choice)
    requires Inv(cfg, s)
    ensures Inv(cfg, Step(cfg, s, ch))
  {
    hide Owned, Ordered, EnqueueStep, DequeueStep, Push;
    if s.fault == NoFault {
      match ch
      case Enqueue(m, malloc) =>
        EnqueueSafe(cfg, s, m, malloc);
        SameHistory(cfg, s, m, malloc);
        if s.waitedEach { EnqueueOrdered(cfg, s, m, malloc); }
      case Dequeue =>
        DequeueSafe(cfg, s);
        Alternation(cfg, s);
        if s.waitedEach && s.pending == 0 { DequeueOrdered(cfg, s); }
      case Wait =>
        WaitSafe(cfg, s);
        if s.waitedEach { WaitOrdered(cfg, s); }
    }
  }

  lemma SameHistory(cfg: Config, s: State, m: Msg, malloc: Buf)
    ensures EnqueueStep(cfg, s, m, malloc).waitedEach == s.waitedEach
  {
  }

  lemma Alternation(cfg: Config, s: State)
    ensures DequeueStep(cfg, s).waitedEach == (s.waitedEach && s.pending == 0)
  {
  }

  lemma WaitSafe(cfg: Config, s: State)
    requires Safe(cfg, s)
    ensures Safe(cfg, WaitStep(s)) && WaitStep(s).waitedEach == s.waitedEach
  {
    hide Bufs;
  }
}

/** What the locked channel promises over every run, and what its destructor leaves behind. */
module LockedChannelRuns {
  import opened Delivery
  import opened Options
  import opened Buffers
  import opened LockedChannel

  type Schedule = seq<Choice>

  ghost function After(cfg: Config, sched: Schedule): State {
    if sched == [] then Init(cfg) else Step(cfg, After(cfg, sched[..|sched| - 1]), sched[|sched| - 1])
  }

  lemma {:induction false} EveryRun(cfg: Config, sched: Schedule)
    ensures Inv(cfg, After(cfg, sched))
  {
    hide Inv, Step, Init;
    if sched == [] {
      InitInv(cfg);
    } else {
      EveryRun(cfg, sched[..|sched| - 1]);
      StepInv(cfg, After(cfg, sched[..|sched| - 1]), sched[|sched| - 1]);
    }
  }

  lemma InitInv(cfg: Config)
    ensures Inv(cfg, Init(cfg))
  {
    assert Init(cfg).live.Keys == {cfg.home};
    assert Bufs([]) == [];
  }

  lemma Nothing(cfg: Config)
    ensures After(cfg, []) == Init(cfg)
  {
    hide Inv;
  }

  lemma {:induction false} Next(cfg: Config, sched: Schedule, i: nat)
    requires i < |sched|
    ensures After(cfg, sched[..i + 1]) == Step(cfg, After(cfg, sched[..i]), sched[i])
  {
    hide Inv;
    assert sched[..i + 1][..i] == sched[..i];
  }

  /** Of the program's checks only the capacity check can fail, and only at a full queue. */
  lemma {:induction false} OnlyFullQueueFails(cfg: Config, sched: Schedule, m: Msg, malloc: Buf)
    ensures var s := After(cfg, sched);
            && (s.fault == NoFault || s.fault == QueueFull)
            && (s.fault == NoFault ==>
                  (EnqueueStep(cfg, s, m, malloc).fault == QueueFull <==> !s.ready && |s.queue| == cfg.capacity)
                  && DequeueStep(cfg, s).fault == NoFault)
  {
    EveryRun(cfg, sched);
    hide Owned, Ordered;
    var s := After(cfg, sched);
    if s.fault == NoFault { DequeueSafe(cfg, s); }
  }

  /** Each live buffer is owned once: home, queued, pooled or in use. */
  lemma {:induction false} OneOwnerEach(cfg: Config, sched: Schedule, b: Buf)
    ensures var s := After(cfg, sched);
            Owned(cfg.home, s.raw, s.queue, s.free)[b] == if b in s.live then 1 else 0
  {
    EveryRun(cfg, sched);
    hide Ordered;
    OwnedOnce(cfg, After(cfg, sched), b);
  }

  /** While every Dequeue is waited for, messages arrive in send order, whole, and none is lost. */
  lemma {:induction false} Fifo(cfg: Config, sched: Schedule)
    requires After(cfg, sched).waitedEach
    ensures var s := After(cfg, sched);
            && |s.received| <= |s.sent| && s.received == s.sent[..|s.received|]
            && |s.sent| - |s.received| == |s.queue| + Handed(s)
  {
    EveryRun(cfg, sched);
    hide Owned;
  }

  /** A direct copy never overtakes a queued message. */
  lemma {:induction false} DirectOnlyWhenEmpty(cfg: Config, sched: Schedule)
    ensures var s := After(cfg, sched); s.ready ==> s.queue == [] && s.raw == cfg.home
  {
    EveryRun(cfg, sched);
    hide Owned, Ordered;
  }

  /** The receiver's buffer holds its last message until the next Dequeue, whatever is enqueued meanwhile. */
  lemma {:induction false} ReceivedBufferStable(cfg: Config, sched: Schedule, m: Msg, malloc: Buf)
    requires var s := After(cfg, sched); s.waitedEach && s.pending == 0 && s.received != []
    ensures var s := After(cfg, sched);
            var s' := After(cfg, sched + [Enqueue(m, malloc)]);
            && Carries(s.live, Entry(s.count, s.raw), s.received[|s.received| - 1])
            && s'.raw == s.raw && s'.count == s.count && s'.received == s.received
            && Carries(s'.live, Entry(s.count, s.raw), s.received[|s.received| - 1])
  {
    hide Inv, Ordered, EnqueueStep, Carries;
    EveryRun(cfg, sched);
    EveryRun(cfg, sched + [Enqueue(m, malloc)]);
    var s, s' := After(cfg, sched), After(cfg, sched + [Enqueue(m, malloc)]);
    assert (sched + [Enqueue(m, malloc)])[..|sched|] == sched;
    hide After;
    NotReady(cfg, s);
    EnqueueLeaves(cfg, s, m, malloc);
    SameHistory(cfg, s, m, malloc);
    NotReady(cfg, s');
  }

  lemma NotReady(cfg: Config, s: State)
    requires Inv(cfg, s) && s.waitedEach && s.pending == 0 && s.received != []
    ensures !s.ready && Carries(s.live, Entry(s.count, s.raw), s.received[|s.received| - 1])
  {
    hide Owned;
  }

  lemma EnqueueLeaves(cfg: Config, s: State, m: Msg, malloc: Buf)
    requires !s.ready
    ensures var s' := EnqueueStep(cfg, s, m, malloc);
            s'.raw == s.raw && s'.count == s.count && s'.received == s.received && s'.pending == s.pending
  {
  }

  lemma {:induction false} Extend(cfg: Config, sched: Schedule, s: State, ch: Choice) returns (longer: Schedule, s': State)
    requires After(cfg, sched) == s
    ensures longer == sched + [ch] && s' == Step(cfg, s, ch) && After(cfg, longer) == s'
  {
    hide Inv;
    longer, s' := sched + [ch], Step(cfg, s, ch);
    assert longer[..|sched|] == sched;
  }

  /** The destructor frees the receiver's own buffer and, each once, the pooled and queued ones. */
  function Destroy(cfg: Config, s: State): map<Buf, Option<Payload>> {
    s.live - {cfg.home} - (set b | b in s.free) - (set b | b in Bufs(s.queue))
  }

  /** The last Dequeue that was carried out found a message in the queue. */
  ghost predicate LastDequeueFoundQueued(cfg: Config, sched: Schedule) {
    if sched == [] then false
    else
      var before := sched[..|sched| - 1];
      var s := After(cfg, before);
      if sched[|sched| - 1].Dequeue? && s.fault == NoFault then s.queue != []
      else LastDequeueFoundQueued(cfg, before)
  }

  lemma {:induction false} InUseIff(cfg: Config, sched: Schedule)
    ensures After(cfg, sched).raw != cfg.home <==> LastDequeueFoundQueued(cfg, sched)
  {
    hide Inv, EnqueueStep, DequeueStep, WaitStep;
    if sched != [] {
      var before := sched[..|sched| - 1];
      var s := After(cfg, before);
      InUseIff(cfg, before);
      EveryRun(cfg, before);
      RawStep(cfg, s, sched[|sched| - 1]);
    }
  }

  /** Only a Dequeue moves the receive pointer, home from an empty queue and away from it otherwise. */
  lemma RawStep(cfg: Config, s: State, ch: Choice)
    requires Inv(cfg, s)
    ensures if ch.Dequeue? && s.fault == NoFault then Step(cfg, s, ch).raw != cfg.home <==> s.queue != []
            else Step(cfg, s, ch).raw == s.raw
  {
    hide Owned, Ordered;
    Disjoint(cfg, s, 0);
  }

  /** It leaks exactly the buffer in use, and there is one if and only if the last Dequeue found the queue non-empty. */
  lemma {:induction false} LeaksBufferInUse(cfg: Config, sched: Schedule)
    ensures var s := After(cfg, sched);
            && Destroy(cfg, s).Keys == (if LastDequeueFoundQueued(cfg, sched) then {s.raw} else {})
            && (forall b :: b in s.free ==> b in s.live && b != cfg.home && b !in Bufs(s.queue))
            && (forall b :: b in Bufs(s.queue) ==> b in s.live && b != cfg.home)
  {
    EveryRun(cfg, sched);
    InUseIff(cfg, sched);
    hide Ordered, LastDequeueFoundQueued;
    var s := After(cfg, sched);
    forall b: Buf ensures b in Destroy(cfg, s) <==> b == s.raw && s.raw != cfg.home {
      WhoOwns(cfg, s, b);
    }
    forall b | b in s.free || b in Bufs(s.queue) ensures b in s.live && b != cfg.home && (b in s.free ==> b !in Bufs(s.queue)) {
      WhoOwns(cfg, s, b);
    }
  }

  /** A run that leaks, and that one more Dequeue keeps from leaking. */
  lemma {:induction false} LeakingRun(cfg: Config, m: Msg, b: Buf) returns (leaks: Schedule, mended: Schedule)
    requires cfg.capacity >= 1 && b != cfg.home
    ensures leaks == [Enqueue(m, b), Dequeue, Wait] && mended == leaks + [Dequeue]
    ensures After(cfg, leaks).received == After(cfg, mended).received == [m]
    ensures Destroy(cfg, After(cfg, leaks)).Keys == {b} && Destroy(cfg, After(cfg, mended)).Keys == {}
  {
    hide After, Inv, Destroy, LastDequeueFoundQueued;
    Nothing(cfg);
    var s := Init(cfg);
    leaks := [];
    leaks, s := Extend(cfg, leaks, s, Enqueue(m, b));
    assert s.queue == [Entry(m.count, b)] && s.live[b] == Some(m.payload);
    leaks, s := Extend(cfg, leaks, s, Dequeue);
    leaks, s := Extend(cfg, leaks, s, Wait);
    assert s.received == [m] && s.raw == b && s.queue == [] && s.unreceived == 0 && s.fault == NoFault;
    InUseOnly(cfg, leaks);
    mended, s := Extend(cfg, leaks, s, Dequeue);
    InUseOnly(cfg, mended);
  }

  lemma InUseOnly(cfg: Config, sched: Schedule)
    ensures var s := After(cfg, sched); Destroy(cfg, s).Keys == if s.raw != cfg.home then {s.raw} else {}
  {
    LeaksBufferInUse(cfg, sched);
    InUseIff(cfg, sched);
  }

  /** Exactly one of the four places for a live buffer, none for any other. */
  lemma WhoOwns(cfg: Config, s: State, b: Buf)
    requires Owned(cfg.home, s.raw, s.queue, s.free) == multiset(s.live.Keys)
    ensures b in s.live <==> b == cfg.home || b in s.free || b in Bufs(s.queue) || b == s.raw
    ensures b == cfg.home ==> b !in s.free && b !in Bufs(s.queue)
    ensures b in s.free ==> b !in Bufs(s.queue) && b != s.raw
    ensures b in Bufs(s.queue) ==> b != s.raw
  {
    hide Bufs;
    OwnedOnce(cfg, s, b);
    assert b in s.free <==> multiset(s.free)[b] > 0;
    assert b in Bufs(s.queue) <==> multiset(Bufs(s.queue))[b] > 0;
    assert InUse(cfg.home, s.raw)[b] == if b == s.raw && s.raw != cfg.home then 1 else 0;
  }
}
