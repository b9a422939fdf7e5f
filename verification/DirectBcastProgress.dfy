/** The broadcast never gets stuck: from every reachable state every thread can finish any number of calls. */
module DirectBcastProgress {
  import opened Counting
  import opened DirectBcast
  import opened DirectBcastRuns

  /** A thread's place in its call, thread 0's growing with the flags it has seen. */
  function Rank(n: nat, pc: PC): nat {
    match pc
    case StoreBuf => 0
    case StoreSeq => 1
    case WaitFlag(i) => 2 + i
    case FlipOwn => n + 2
    case WaitSeq => 0
    case Copy => 1
    case Copying(_) => 2
    case Toggle => 3
    case Out => n + 3
  }

  /** Its place in all its calls: every action that changes the state takes one thread further. */
  function Position(n: nat, th: Thread): nat { th.calls * (n + 4) + Rank(n, th.pc) }

  /** What is left of k calls for each thread; until all have finished them nobody is two ahead. */
  ghost function ToGo(n: nat, s: State, k: nat): (r: seq<nat>)
    ensures |r| == |s.th|
  {
    var end := (k + 2) * (n + 4);
    seq(|s.th|, t requires 0 <= t < |s.th| =>
      if Position(n, s.th[t]) <= end then end - Position(n, s.th[t]) else 0)
  }

  /** Either a later place in the same call, or the first of the next one. */
  predicate Later(n: nat, th: Thread, th': Thread) {
    (th'.calls == th.calls && Rank(n, th'.pc) > Rank(n, th.pc)) || (th'.calls == th.calls + 1 && th.pc.Out?)
  }

  lemma Advances(n: nat, s: State, t: nat)
    requires Inv(n, s) && t < n && Step(n, s, t) != s
    ensures var s' := Step(n, s, t);
            Later(n, s.th[t], s'.th[t]) && forall u :: 0 <= u < n && u != t ==> s'.th[u] == s.th[u]
  {
    hide Wrap, SeqOk;
    assert t > 0 ==> FollowerOk(n, t, s.th[t], s.flags[t - 1], s.th[0]);
  }

  lemma LaterIsFurther(n: nat, th: Thread, th': Thread)
    requires Later(n, th, th')
    ensures Position(n, th') > Position(n, th)
  {
    if th'.calls == th.calls + 1 {
      assert (th.calls + 1) * (n + 4) == th.calls * (n + 4) + (n + 4);
    }
  }

  lemma NearEnd(n: nat, s: State, t: nat, u: nat, k: nat)
    requires Inv(n, s) && t < n && u < n && Done(s.th[u]) < k
    ensures Position(n, s.th[t]) < (k + 2) * (n + 4)
  {
    NotAhead(n, s, t, u);
    WithinCalls(s.th[t].calls, k + 1, n + 4, Rank(n, s.th[t].pc));
  }

  lemma NotAhead(n: nat, s: State, t: nat, u: nat)
    requires Inv(n, s) && t < n && u < n
    ensures s.th[t].calls <= Done(s.th[u]) + 2 && Rank(n, s.th[t].pc) < n + 4
  {
    hide Wrap, Parity;
    if t > 0 { FollowerHere(n, s, t); }
    if u > 0 { FollowerHere(n, s, u); }
    LeaderHere(n, s);
  }

  lemma Nearer(n: nat, s: State, t: nat, u: nat, k: nat)
    requires Inv(n, s) && Shape(n, s) && t < n && u < n && Done(s.th[u]) < k && Step(n, s, t) != s
    ensures Sum(ToGo(n, Step(n, s, t), k)) < Sum(ToGo(n, s, k))
  {
    hide Inv, Step, Position, Later;
    var s' := Step(n, s, t);
    Advances(n, s, t);
    LaterIsFurther(n, s.th[t], s'.th[t]);
    NearEnd(n, s, t, u, k);
    forall v | 0 <= v < n ensures ToGo(n, s', k)[v] <= ToGo(n, s, k)[v] {
      if v != t { assert s'.th[v] == s.th[v]; }
    }
    SumLess(ToGo(n, s, k), ToGo(n, s', k), t);
  }

  /** In every reachable state, with threads inside or outside their calls, one can move. */
  lemma {:induction false} AlwaysMoves(n: nat, sched: Schedule)
    requires n >= 2 && Legal(n, sched)
    ensures CanMove(n, After(n, sched))
  {
    hide Inv, Step;
    var s := After(n, sched);
    if t :| 0 <= t < n && s.th[t].pc.Out? && s.th[t].calls <= Done(s.th[0]) {
      Enters(n, s, t);
    } else {
      NoDeadlock(n, sched);
    }
  }

  lemma Enters(n: nat, s: State, t: nat)
    requires Shape(n, s) && t < n && s.th[t].pc.Out?
    ensures CanMove(n, s)
  {
    Moves(n, s, t);
  }

  ghost predicate AllDone(s: State, k: nat) { forall t :: 0 <= t < |s.th| ==> Done(s.th[t]) >= k }

  lemma Then(n: nat, sched: Schedule, t: nat)
    requires n >= 2 && Legal(n, sched) && t < n
    ensures Legal(n, sched + [t]) && After(n, sched + [t]) == Step(n, After(n, sched), t)
  {
    assert (sched + [t])[..|sched|] == sched;
  }

  /** From every reachable state and for every k, the threads can go on until each has finished k broadcasts. */
  lemma {:induction false} BroadcastsComplete(n: nat, sched: Schedule, k: nat) returns (more: Schedule)
    requires n >= 2 && Legal(n, sched)
    ensures Legal(n, sched + more) && AllDone(After(n, sched + more), k)
    decreases Sum(ToGo(n, After(n, sched), k))
  {
    hide Inv, Step, After, ToGo, Sum;
    var s := After(n, sched);
    if u :| 0 <= u < n && Done(s.th[u]) < k {
      EveryRun(n, sched);
      AlwaysMoves(n, sched);
      var t :| 0 <= t < n && Step(n, s, t) != s;
      Nearer(n, s, t, u, k);
      Then(n, sched, t);
      more := BroadcastsComplete(n, sched + [t], k);
      assert sched + [t] + more == sched + ([t] + more);
      more := [t] + more;
    } else {
      more := [];
      assert sched + more == sched;
    }
  }
}
