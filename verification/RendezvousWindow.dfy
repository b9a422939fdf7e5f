/**
  What happens when the receiver leaves its window: the sender alone can then make its
  queue-full check fire, and only then.
 */
module RendezvousWindow {
  import opened Delivery
  import opened RendezvousChannel
  import opened RendezvousChannelRuns

  /** Only the sender moves. */
  predicate SenderOnly(more: Schedule) { forall i :: 0 <= i < |more| ==> more[i].0 }

  /** The message the sender still has to copy is not too long for the channel. */
  predicate Fits(cfg: Config, sender: SPc) {
    sender.SPend? || sender.SCopy? ==> sender.m.count <= cfg.maxCount
  }

  /** The messages sent after the first n are those of `next`. */
  predicate Sends(sent: seq<Msg>, n: nat, next: nat -> Msg) {
    forall k :: n <= k < |sent| ==> sent[k] == next(k)
  }

  /** Actions of the sender before its next count is in the queue. */
  function ToGo(pc: SPc): nat {
    match pc
    case SDone => 3
    case SIdle => 2
    case SPend(_) => 2
    case SCopy(_, _, _) => 1
    case SCount(_, _) => 0
  }

  /** The sender's next action: a new message when it is between calls. */
  function NextCall(s: State, next: nat -> Msg): Choice {
    if s.sender.SIdle? then Enqueue(next(|s.sent|)) else Go
  }

  lemma OutstandingParts(s: State)
    requires QueuesOk(s)
    ensures Outstanding(s) == |s.requests| + |s.counts| + if Taken(s.sender) then 1 else 0
  {
  }

  /**
    With more dequeues outstanding than the queues hold, the sender never has to wait:
    each of its actions brings the full queue nearer.
   */
  lemma SenderAdvances(cfg: Config, s: State, next: nat -> Msg)
    requires Inv(cfg, s) && s.fault == NoFault && Outstanding(s) > cfg.maxBufferedMsgs && Fits(cfg, s.sender)
    requires forall k :: next(k).count <= cfg.maxCount
    ensures var s' := SenderStep(cfg, s, NextCall(s, next));
            if s.sender.SCount? && |s.counts| == cfg.maxBufferedMsgs then s'.fault == CountsFull && s'.sent == s.sent
            else
              && s'.fault == NoFault && Outstanding(s') == Outstanding(s) && Fits(cfg, s'.sender)
              && (if s.sender.SCount? then |s'.counts| == |s.counts| + 1
                  else s'.counts == s.counts && ToGo(s'.sender) < ToGo(s.sender))
              && |s.sent| <= |s'.sent| && s'.sent[..|s.sent|] == s.sent && Sends(s'.sent, |s.sent|, next)
  {
    hide Replay, MemOk;
    OutstandingParts(s);
    assert !s.sender.SCount? && !s.sender.SCopy? ==> s.requests != [];
  }

  /** The sender alone, with any messages that fit, makes its check fire. */
  lemma {:induction false} SenderOverflows(cfg: Config, sched: Schedule, next: nat -> Msg) returns (more: Schedule)
    requires cfg.Ok()
    requires var s := After(cfg, sched); s.fault == NoFault && Outstanding(s) > cfg.maxBufferedMsgs && Fits(cfg, s.sender)
    requires forall k :: next(k).count <= cfg.maxCount
    ensures SenderOnly(more)
    ensures var s, s' := After(cfg, sched), After(cfg, sched + more);
            s'.fault == CountsFull && Sends(s'.sent, |s.sent|, next)
    decreases cfg.maxBufferedMsgs - |After(cfg, sched).counts|, ToGo(After(cfg, sched).sender)
  {
    hide Inv, SenderStep, Outstanding, Fits, Sends;
    var s := After(cfg, sched);
    EveryRun(cfg, sched);
    CountsFit(cfg, s);
    SenderAdvances(cfg, s, next);
    var call := (true, NextCall(s, next));
    var sched1 := sched + [call];
    assert sched1[..|sched|] == sched;
    var s1 := After(cfg, sched1);
    assert s1 == SenderStep(cfg, s, call.1);
    hide After;
    if s.sender.SCount? && |s.counts| == cfg.maxBufferedMsgs {
      more := [call];
      NothingSent(s.sent, next);
    } else {
      EveryRun(cfg, sched1);
      CountsFit(cfg, s1);
      var rest := SenderOverflows(cfg, sched1, next);
      more := [call] + rest;
      assert sched + more == sched1 + rest;
      EveryRun(cfg, sched1 + rest);
      SentGrows(cfg, sched1, rest);
      SendsJoin(s.sent, s1.sent, After(cfg, sched + more).sent, next);
    }
  }

  lemma CountsFit(cfg: Config, s: State)
    requires Inv(cfg, s)
    ensures |s.counts| <= cfg.maxBufferedMsgs
  {
  }

  lemma NothingSent(sent: seq<Msg>, next: nat -> Msg)
    ensures Sends(sent, |sent|, next)
  {
  }

  lemma SendsJoin(a: seq<Msg>, b: seq<Msg>, c: seq<Msg>, next: nat -> Msg)
    requires |a| <= |b| <= |c| && c[..|b|] == b && Sends(b, |a|, next) && Sends(c, |b|, next)
    ensures Sends(c, |a|, next)
  {
    forall k | |a| <= k < |c| ensures c[k] == next(k) {
      if k < |b| { assert c[k] == c[..|b|][k]; }
    }
  }

  /** No step takes back a message sent. */
  lemma {:induction false} SentGrows(cfg: Config, sched: Schedule, more: Schedule)
    requires cfg.Ok()
    ensures var s, s' := After(cfg, sched), After(cfg, sched + more);
            |s.sent| <= |s'.sent| && s'.sent[..|s.sent|] == s.sent
  {
    hide Step;
    if more == [] {
      assert sched + more == sched;
    } else {
      var front := more[..|more| - 1];
      SentGrows(cfg, sched, front);
      assert (sched + more)[..|sched + more| - 1] == sched + front;
      SentStep(cfg, After(cfg, sched + front), more[|more| - 1].0, more[|more| - 1].1);
      var n := |After(cfg, sched).sent|;
      var mid, end := After(cfg, sched + front).sent, After(cfg, sched + more).sent;
      assert end[..n] == end[..|mid|][..n] == mid[..n];
    }
  }

  lemma SentStep(cfg: Config, s: State, sends: bool, ch: Choice)
    ensures var s' := Step(cfg, s, sends, ch); |s.sent| <= |s'.sent| && s'.sent[..|s.sent|] == s.sent
  {
  }

  /** The sender alone changes nothing about how many dequeues are outstanding. */
  lemma {:induction false} OutstandingKept(cfg: Config, sched: Schedule, more: Schedule)
    requires cfg.Ok() && SenderOnly(more)
    ensures Outstanding(After(cfg, sched + more)) == Outstanding(After(cfg, sched))
  {
    hide SenderStep;
    if more == [] {
      assert sched + more == sched;
    } else {
      var front := more[..|more| - 1];
      OutstandingKept(cfg, sched, front);
      assert (sched + more)[..|sched + more| - 1] == sched + front;
      SenderPostsNothing(cfg, After(cfg, sched + front), more[|more| - 1].1);
    }
  }

  lemma SenderPostsNothing(cfg: Config, s: State, ch: Choice)
    ensures var s' := SenderStep(cfg, s, ch); s'.dests == s.dests && s'.got == s.got
  {
  }

  /** Some continuation of the sender alone makes its queue-full check fire. */
  ghost predicate CanOverflow(cfg: Config, sched: Schedule)
    requires cfg.Ok()
  {
    exists more :: SenderOnly(more) && After(cfg, sched + more).fault == CountsFull
  }

  /** The sender alone can make its queue-full check fire if and only if the receiver is past its window. */
  lemma {:induction false} OverflowIff(cfg: Config, sched: Schedule, m: Msg)
    requires cfg.Ok() && m.count <= cfg.maxCount
    requires After(cfg, sched).fault == NoFault && Fits(cfg, After(cfg, sched).sender)
    ensures CanOverflow(cfg, sched) <==> Outstanding(After(cfg, sched)) > cfg.maxBufferedMsgs
  {
    hide After, Fits, Outstanding;
    if Outstanding(After(cfg, sched)) > cfg.maxBufferedMsgs {
      var more := SenderOverflows(cfg, sched, _ => m);
    }
    if more :| SenderOnly(more) && After(cfg, sched + more).fault == CountsFull {
      OutstandingKept(cfg, sched, more);
      EveryRun(cfg, sched + more);
      FullIsPast(cfg, After(cfg, sched + more));
    }
  }

  lemma FullIsPast(cfg: Config, s: State)
    requires Inv(cfg, s) && s.fault == CountsFull
    ensures Outstanding(s) > cfg.maxBufferedMsgs
  {
    hide MemOk;
    OutstandingParts(s);
  }

  /**
    A dequeue past the window, in any reachable state: either its own check fires at once,
    or the sender alone, with any messages that fit, then makes the other one fire.
   */
  lemma {:induction false} PastTheWindow(cfg: Config, sched: Schedule, b: Buf, next: nat -> Msg) returns (more: Schedule)
    requires cfg.Ok()
    requires var s := After(cfg, sched);
             s.fault == NoFault && s.receiver.RIdle? && Outstanding(s) >= cfg.maxBufferedMsgs && Fits(cfg, s.sender)
    requires forall k :: next(k).count <= cfg.maxCount
    ensures SenderOnly(more)
    ensures var s, s' := After(cfg, sched), After(cfg, sched + [(false, Dequeue(b))] + more);
            && (s'.fault == RequestsFull || s'.fault == CountsFull)
            && Sends(s'.sent, |s.sent|, next)
  {
    var call := (false, Dequeue(b));
    var sched1 := sched + [call];
    assert sched1[..|sched|] == sched;
    var s, s1 := After(cfg, sched), After(cfg, sched1);
    assert s1 == ReceiverStep(cfg, s, call.1);
    assert s1.sent == s.sent && s1.sender == s.sender;
    if s1.fault == RequestsFull {
      more := [];
      assert sched1 + more == sched1;
    } else {
      hide After;
      more := SenderOverflows(cfg, sched1, next);
    }
  }

  /** Such states are reachable, without a failed check, for every size of the queues. */
  lemma {:induction false} WindowCanBeLeft(cfg: Config, b: Buf, m: Msg) returns (sched: Schedule)
    requires cfg.Ok() && m.count <= cfg.maxCount
    ensures var s := After(cfg, sched);
            && s.fault == NoFault && Fits(cfg, s.sender) && s.receiver.RIdle?
            && Outstanding(s) == cfg.maxBufferedMsgs + 1
  {
    hide After;
    var n := cfg.maxBufferedMsgs;
    sched := PostAll(cfg, b, n);
    var s := Posted(b, n);
    sched, s := Extend(cfg, sched, s, (true, Enqueue(m)));
    sched, s := Extend(cfg, sched, s, (false, Dequeue(b)));
  }

  /** After n dequeues and nothing else. */
  function Posted(b: Buf, n: nat): State {
    Init().(requests := seq(n, _ => b), dests := seq(n, _ => b))
  }

  lemma {:induction false} PostAll(cfg: Config, b: Buf, n: nat) returns (sched: Schedule)
    requires cfg.Ok() && n <= cfg.maxBufferedMsgs
    ensures After(cfg, sched) == Posted(b, n)
  {
    hide After;
    if n == 0 {
      Nothing(cfg);
      sched := [];
    } else {
      sched := PostAll(cfg, b, n - 1);
      var s: State;
      sched, s := Extend(cfg, sched, Posted(b, n - 1), (false, Dequeue(b)));
      assert seq(n - 1, _ => b) + [b] == seq(n, _ => b);
    }
  }

  lemma {:induction false} Extend(cfg: Config, sched: Schedule, s: State, x: (bool, Choice))
    returns (longer: Schedule, s': State)
    requires cfg.Ok() && After(cfg, sched) == s
    ensures s' == Step(cfg, s, x.0, x.1) && After(cfg, longer) == s'
  {
    longer, s' := sched + [x], Step(cfg, s, x.0, x.1);
    assert longer[..|sched|] == sched;
  }
}
