/**
  When exactly the locked channel keeps the order of messages.  Two Dequeues may be
  called before a Wait; both Waits then deliver the same message, so what has been
  received is the sent messages in order if and only if every Dequeue was waited for.
 */
module LockedChannelOrder {
  import opened Delivery
  import opened Options
  import opened Buffers
  import opened LockedChannel
  import opened LockedChannelRuns

  /** A message is there for the next Wait. */
  predicate AtHand(s: State) { s.completed || s.copied }

  predicate Filled(live: map<Buf, Option<Payload>>, b: Buf) { b in live && live[b].Some? }

  /** What the next Wait would deliver. */
  function InHand(s: State): Msg
    requires Filled(s.live, s.raw)
  {
    Msg(s.count, s.live[s.raw].value)
  }

  predicate Repeats(r: seq<Msg>) { exists i :: 0 < i < |r| && r[i] == r[i - 1] }

  /** Every message that can be taken is whole. */
  predicate Whole(s: State) {
    && (AtHand(s) ==> !s.ready && Filled(s.live, s.raw))
    && forall i :: 0 <= i < |s.queue| ==> Filled(s.live, s.queue[i].buf)
  }

  /** A Dequeue that was not waited for shows in what is, or will be, received. */
  predicate Doubled(s: State)
    requires Whole(s)
  {
    || s.pending >= 2
    || Repeats(s.received)
    || (s.pending == 1 && AtHand(s) && s.received != [] && s.received[|s.received| - 1] == InHand(s))
  }

  predicate Tracked(s: State) { Whole(s) && (s.waitedEach || Doubled(s)) }

  lemma PushTracked(s: State, m: Msg, b: Buf, free: seq<Buf>)
    requires Tracked(s) && b != s.raw
    ensures Tracked(Push(s.(free := free), m, b))
  {
  }

  lemma EnqueueTracked(cfg: Config, s: State, m: Msg, malloc: Buf)
    requires Safe(cfg, s) && Tracked(s)
    ensures Tracked(EnqueueStep(cfg, s, m, malloc))
  {
    hide Owned, Push, Repeats;
    Disjoint(cfg, s, 0);
    if !s.ready && s.unreceived < cfg.capacity {
      if s.free != [] {
        PushTracked(s, m, s.free[|s.free| - 1], s.free[..|s.free| - 1]);
      } else if malloc !in s.live {
        PushTracked(s, m, malloc, s.free);
        assert s.(free := s.free) == s;
      }
    }
  }

  lemma DequeueTracked(cfg: Config, s: State)
    requires Safe(cfg, s) && Tracked(s)
    ensures Tracked(DequeueStep(cfg, s))
  {
    hide Owned, Repeats;
    Disjoint(cfg, s, 0);
  }

  lemma WaitTracked(s: State)
    requires Tracked(s)
    ensures Tracked(WaitStep(s))
  {
    var s' := WaitStep(s);
    if Repeats(s.received) {
      var i :| 0 < i < |s.received| && s.received[i] == s.received[i - 1];
      assert s'.received[i] == s'.received[i - 1];
    } else if s.pending == 1 && AtHand(s) && !s.waitedEach {
      var n := |s.received|;
      assert s'.received[n] == s'.received[n - 1];
    }
  }

  lemma {:induction false} EveryRunTracked(cfg: Config, sched: Schedule)
    ensures Tracked(After(cfg, sched))
  {
    hide Inv, Tracked, EnqueueStep, DequeueStep, WaitStep, Init;
    if sched == [] {
      InitTracked(cfg);
    } else {
      var before := sched[..|sched| - 1];
      EveryRunTracked(cfg, before);
      IsSafe(cfg, before);
      var s := After(cfg, before);
      match sched[|sched| - 1]
      case Enqueue(m, malloc) => EnqueueTracked(cfg, s, m, malloc);
      case Dequeue => DequeueTracked(cfg, s);
      case Wait => WaitTracked(s);
    }
  }

  lemma InitTracked(cfg: Config)
    ensures Tracked(Init(cfg))
  {
  }

  lemma IsSafe(cfg: Config, sched: Schedule)
    ensures Safe(cfg, After(cfg, sched))
  {
    EveryRun(cfg, sched);
    hide Safe, Ordered;
  }

  predicate Distinct(ms: seq<Msg>) { forall i, k :: 0 <= i < k < |ms| ==> ms[i] != ms[k] }

  predicate Prefix(r: seq<Msg>, ms: seq<Msg>) { |r| <= |ms| && r == ms[..|r|] }

  /**
    Once all Dequeues are waited for: different messages were received in send order if
    and only if each Dequeue was waited for before the next.
   */
  lemma {:induction false} InOrderIff(cfg: Config, sched: Schedule)
    requires After(cfg, sched).pending == 0 && Distinct(After(cfg, sched).sent)
    ensures var s := After(cfg, sched); s.waitedEach <==> Prefix(s.received, s.sent)
  {
    hide After, Repeats, Distinct;
    var s := After(cfg, sched);
    EveryRunTracked(cfg, sched);
    if s.waitedEach { Fifo(cfg, sched); } else { RepeatsIsNoPrefix(s.received, s.sent); }
  }

  lemma RepeatsIsNoPrefix(r: seq<Msg>, ms: seq<Msg>)
    requires Distinct(ms) && Repeats(r)
    ensures !Prefix(r, ms)
  {
    var i :| 0 < i < |r| && r[i] == r[i - 1];
    if Prefix(r, ms) { NeighboursDiffer(r, ms, i); }
  }

  lemma NeighboursDiffer(r: seq<Msg>, ms: seq<Msg>, i: nat)
    requires Distinct(ms) && Prefix(r, ms) && 0 < i < |r|
    ensures r[i] != r[i - 1]
  {
    assert r[i] == ms[i] && r[i - 1] == ms[i - 1];
  }

  lemma {:induction false} NotMended(cfg: Config, sched: Schedule, more: Schedule)
    ensures After(cfg, sched + more).waitedEach ==> After(cfg, sched).waitedEach
  {
    if more == [] {
      assert sched + more == sched;
    } else {
      var front := more[..|more| - 1];
      NotMended(cfg, sched, front);
      assert (sched + more)[..|sched + more| - 1] == sched + front;
      var s, ch := After(cfg, sched + front), more[|more| - 1];
      FlagStep(cfg, s, ch);
    }
  }

  lemma FlagStep(cfg: Config, s: State, ch: Choice)
    ensures Step(cfg, s, ch).waitedEach ==> s.waitedEach
  {
  }

  /**
    Two Dequeues before a Wait: however the run goes on, when all are waited for some
    message has been received twice in a row.
   */
  lemma {:induction false} TwoPendingRepeat(cfg: Config, sched: Schedule, more: Schedule)
    requires After(cfg, sched).pending >= 2 && After(cfg, sched + more).pending == 0
    ensures Repeats(After(cfg, sched + more).received)
  {
    EveryRun(cfg, sched);
    hide After, Safe;
    EveryRunTracked(cfg, sched + more);
    NotMended(cfg, sched, more);
  }

  /** Such a run exists: it ends with the first message received twice and the second never. */
  lemma {:induction false} OrderCanBreak(cfg: Config, m1: Msg, m2: Msg, malloc: Buf) returns (sched: Schedule)
    requires cfg.capacity >= 1 && malloc != cfg.home && m1 != m2
    ensures sched == [Dequeue, Dequeue, Enqueue(m1, malloc), Enqueue(m2, malloc), Wait, Wait]
    ensures var s := After(cfg, sched);
            s.sent == [m1, m2] && s.received == [m1, m1] && s.pending == 0
  {
    hide After, Inv;
    Nothing(cfg);
    sched := [];
    var s := Init(cfg);
    sched, s := Extend(cfg, sched, s, Dequeue);
    sched, s := Extend(cfg, sched, s, Dequeue);
    sched, s := Extend(cfg, sched, s, Enqueue(m1, malloc));
    assert s.copied && s.live[cfg.home] == Some(m1.payload) && s.sent == [m1];
    sched, s := Extend(cfg, sched, s, Enqueue(m2, malloc));
    sched, s := Extend(cfg, sched, s, Wait);
    assert s.received == [m1];
    sched, s := Extend(cfg, sched, s, Wait);
  }
}
