/** The barrier never gets stuck: from every reachable state every thread can finish any number of barriers. */
module SenseBarrierProgress {
  import opened Counting
  import opened SenseBarrier
  import opened SenseBarrierRuns

  /** A thread's place in all its barriers: every action that changes the state takes one thread further. */
  function Position(th: Thread): nat {
    th.calls * 8 +
    match th.pc
    case Arrive => 0
    case LWait => 1
    case NWait => 1
    case LReset => 2
    case LSense => 3
    case LRelease(_) => 4
    case Flip => 5
    case Out => 6
  }

  /** What is left of k barriers for each thread; until all have finished them nobody is two ahead. */
  ghost function ToGo(s: State, k: nat): (r: seq<nat>)
    ensures |r| == |s.th|
  {
    seq(|s.th|, t requires 0 <= t < |s.th| =>
      if Position(s.th[t]) <= (k + 2) * 8 then (k + 2) * 8 - Position(s.th[t]) else 0)
  }

  lemma Advances(n: nat, s: State, t: nat)
    requires Inv(n, s) && t < n && Step(s, t) != s
    ensures var s' := Step(s, t);
            Position(s'.th[t]) > Position(s.th[t]) && forall u :: 0 <= u < n && u != t ==> s'.th[u] == s.th[u]
  {
  }

  lemma NearEnd(n: nat, s: State, t: nat, u: nat, k: nat)
    requires Inv(n, s) && t < n && u < n && Passed(s.th[u]) < k
    ensures Position(s.th[t]) < (k + 2) * 8
  {
    assert ThreadOk(s.released, t, s.th[t]) && ThreadOk(s.released, u, s.th[u]);
  }

  lemma Nearer(n: nat, s: State, t: nat, u: nat, k: nat)
    requires Inv(n, s) && |s.th| == n && t < n && u < n && Passed(s.th[u]) < k && Step(s, t) != s
    ensures Sum(ToGo(Step(s, t), k)) < Sum(ToGo(s, k))
  {
    hide Inv, Step, Position;
    var s' := Step(s, t);
    Advances(n, s, t);
    NearEnd(n, s, t, u, k);
    forall v | 0 <= v < n ensures ToGo(s', k)[v] <= ToGo(s, k)[v] {
      if v != t { assert s'.th[v] == s.th[v]; }
    }
    SumLess(ToGo(s, k), ToGo(s', k), t);
  }

  /** In every reachable state, with threads inside or outside the barrier, one can move. */
  lemma {:induction false} AlwaysMoves(n: nat, sched: Schedule)
    requires n > 0 && Legal(n, sched)
    ensures CanMove(After(n, sched))
  {
    hide Inv, Step;
    var s := After(n, sched);
    if t :| 0 <= t < n && s.th[t].pc.Out? && s.th[t].calls <= s.released {
      Enters(s, t);
    } else {
      NoDeadlock(n, sched);
    }
  }

  lemma Enters(s: State, t: nat)
    requires t < |s.th| && s.th[t].pc.Out?
    ensures CanMove(s)
  {
    Moves(s, t);
  }

  ghost predicate AllPassed(s: State, k: nat) { forall t :: 0 <= t < |s.th| ==> Passed(s.th[t]) >= k }

  lemma Then(n: nat, sched: Schedule, t: nat)
    requires n > 0 && Legal(n, sched) && t < n
    ensures Legal(n, sched + [t]) && After(n, sched + [t]) == Step(After(n, sched), t)
  {
    assert (sched + [t])[..|sched|] == sched;
  }

  /** From every reachable state and for every k, the threads can go on until each has finished k barriers. */
  lemma {:induction false} BarriersComplete(n: nat, sched: Schedule, k: nat) returns (more: Schedule)
    requires n > 0 && Legal(n, sched)
    ensures Legal(n, sched + more) && AllPassed(After(n, sched + more), k)
    decreases Sum(ToGo(After(n, sched), k))
  {
    hide Inv, Step, After, ToGo, Sum;
    var s := After(n, sched);
    if u :| 0 <= u < n && Passed(s.th[u]) < k {
      EveryRun(n, sched);
      AlwaysMoves(n, sched);
      var t :| 0 <= t < n && Step(s, t) != s;
      Nearer(n, s, t, u, k);
      Then(n, sched, t);
      more := BarriersComplete(n, sched + [t], k);
      assert sched + [t] + more == sched + ([t] + more);
      more := [t] + more;
    } else {
      more := [];
      assert sched + more == sched;
    }
  }
}
