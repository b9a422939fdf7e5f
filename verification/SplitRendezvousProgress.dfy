/** The rendezvous never gets stuck: from every reachable state every thread can return from any number of splits. */
module SplitRendezvousProgress {
  import opened Counting
  import opened Options
  import opened SplitRendezvous
  import opened SplitRendezvousRuns

  /** A thread's place in its split, thread 0's growing with the results it has written. */
  function Rank(n: nat, pc: PC): nat {
    match pc
    case LPhase => 0
    case LCount(_) => 1
    case LSet(i) => 2 + if i <= n then i else n
    case LInvert => n + 3
    case NPhase => 0
    case NCheck(_) => 1
    case NAdd(_, _) => 2
    case NSpin(_) => 3
    case Take => n + 4
    case Out => n + 5
  }

  /** Its place in all its splits. */
  function Position(n: nat, th: Thread): nat { th.calls * (n + 6) + Rank(n, th.pc) }

  /** What is left of k splits for each thread; until all have returned from them nobody is three ahead. */
  ghost function ToGo(n: nat, s: State, k: nat): (r: seq<nat>)
    ensures |r| == |s.th|
  {
    var end := (k + 3) * (n + 6);
    seq(|s.th|, t requires 0 <= t < |s.th| =>
      if Position(n, s.th[t]) <= end then end - Position(n, s.th[t]) else 0)
  }

  /** Thread t's action changes the state, and is not thread 0's looking at the phase once more. */
  ghost predicate Proceeds(n: nat, s: State, t: nat)
    requires Shape(n, s) && t < n
  {
    Step(n, s, t) != s && (s.th[t].pc.LCount? ==> Step(n, s, t).th[t].pc.LSet?)
  }

  /** Either a later place in the same split, or the first of the next one. */
  predicate Later(n: nat, th: Thread, th': Thread) {
    (th'.calls == th.calls && Rank(n, th'.pc) > Rank(n, th.pc)) || (th'.calls == th.calls + 1 && th.pc.Out?)
  }

  lemma Advances(n: nat, s: State, t: nat)
    requires Inv(n, s) && Shape(n, s) && t < n && Proceeds(n, s, t)
    ensures var s' := Step(n, s, t);
            Later(n, s.th[t], s'.th[t]) && forall u :: 0 <= u < n && u != t ==> s'.th[u] == s.th[u]
  {
    Here(n, s, t);
    hide Inv;
  }

  lemma LaterIsFurther(n: nat, th: Thread, th': Thread)
    requires Later(n, th, th')
    ensures Position(n, th') > Position(n, th)
  {
    if th'.calls == th.calls + 1 {
      assert (th.calls + 1) * (n + 6) == th.calls * (n + 6) + (n + 6);
    }
  }

  lemma NotAhead(n: nat, s: State, t: nat, u: nat)
    requires Inv(n, s) && t < n && u < n
    ensures s.th[t].calls <= |s.th[u].taken| + 3
  {
    Here(n, s, t);
    Here(n, s, u);
  }

  lemma Nearer(n: nat, s: State, t: nat, u: nat, k: nat)
    requires Inv(n, s) && Shape(n, s) && t < n && u < n && |s.th[u].taken| < k && Proceeds(n, s, t)
    ensures Sum(ToGo(n, Step(n, s, t), k)) < Sum(ToGo(n, s, k))
  {
    var s' := Step(n, s, t);
    Advances(n, s, t);
    hide Inv, Step, Later, Proceeds;
    LaterIsFurther(n, s.th[t], s'.th[t]);
    NotAhead(n, s, t, u);
    WithinCalls(s.th[t].calls, k + 2, n + 6, Rank(n, s.th[t].pc));
    hide Position;
    forall v | 0 <= v < n ensures ToGo(n, s', k)[v] <= ToGo(n, s, k)[v] {
      if v != t { assert s'.th[v] == s.th[v]; }
    }
    SumLess(ToGo(n, s, k), ToGo(n, s', k), t);
  }

  /** In every reachable state, with threads inside or outside the split, one can proceed. */
  lemma {:induction false} AlwaysProceeds(n: nat, sched: Schedule) returns (t: nat)
    requires n > 0 && Legal(n, sched)
    ensures t < n && Proceeds(n, After(n, sched), t)
  {
    hide Inv, Step, Proceeds;
    var s := After(n, sched);
    if v :| 0 <= v < n && s.th[v].pc.Out? && s.th[v].calls <= s.inverted {
      t := v;
      Enters(n, s, t);
    } else {
      NoDeadlock(n, sched);
      EveryRun(n, sched);
      t := Proceeding(n, s);
    }
  }

  lemma Enters(n: nat, s: State, t: nat)
    requires Shape(n, s) && t < n && s.th[t].pc.Out?
    ensures Proceeds(n, s, t)
  {
    assert Step(n, s, t).th[t].pc != s.th[t].pc;
  }

  lemma Proceeding(n: nat, s: State) returns (t: nat)
    requires Inv(n, s) && Shape(n, s) && GoesOn(n, s)
    ensures t < n && Proceeds(n, s, t)
  {
    hide Inv;
    if v :| 0 < v < n && Step(n, s, v) != s {
      t := v;
      Here(n, s, t);
    } else {
      t := 0;
    }
  }

  ghost predicate AllReturned(s: State, k: nat) { forall t :: 0 <= t < |s.th| ==> |s.th[t].taken| >= k }

  lemma Then(n: nat, sched: Schedule, t: nat)
    requires n > 0 && Legal(n, sched) && t < n
    ensures Legal(n, sched + [t]) && After(n, sched + [t]) == Step(n, After(n, sched), t)
  {
    assert (sched + [t])[..|sched|] == sched;
  }

  /** From every reachable state and for every k, the threads can go on until each has k results. */
  lemma {:induction false} SplitsComplete(n: nat, sched: Schedule, k: nat) returns (more: Schedule)
    requires n > 0 && Legal(n, sched)
    ensures Legal(n, sched + more) && AllReturned(After(n, sched + more), k)
    decreases Sum(ToGo(n, After(n, sched), k))
  {
    hide Inv, Step, After, ToGo, Sum, Proceeds;
    var s := After(n, sched);
    if u :| 0 <= u < n && |s.th[u].taken| < k {
      EveryRun(n, sched);
      var t := AlwaysProceeds(n, sched);
      Nearer(n, s, t, u, k);
      Then(n, sched, t);
      more := SplitsComplete(n, sched + [t], k);
      assert sched + [t] + more == sched + ([t] + more);
      more := [t] + more;
    } else {
      more := [];
      assert sched + more == sched;
    }
  }
}
