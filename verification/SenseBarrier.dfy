/**
  The sense-reversing barrier of one communicator's threads in a process: each thread
  counts itself in; thread 0 waits for the full count, resets it and turns the shared
  sense, which the others spin on.
 */
module SenseBarrier {
  import opened Counting

  datatype PC =
    | Out | Arrive
    | LWait | LReset | LSense | LRelease(sense: bool)    // thread 0
    | NWait                                              // the others
    | Flip

  /** `calls` counts the barriers entered, the current one included. */
  datatype Thread = Thread(pc: PC, sense: bool, calls: nat)

  datatype State = State(
    reached: nat,          // num_threads_reached_barrier
    sense: bool,           // comm_barrier_sense
    th: seq<Thread>,
    released: nat)         // history: barriers thread 0 has released

  function At(s: State, t: nat, pc: PC): State
    requires t < |s.th|
  {
    s.(th := s.th[t := s.th[t].(pc := pc)])
  }

  function Step(s: State, t: nat): (s': State)
    requires t < |s.th|
    ensures |s'.th| == |s.th|
  {
    var me := s.th[t];
    match me.pc
    case Out => s.(th := s.th[t := me.(pc := Arrive, calls := me.calls + 1)])
    case Arrive => At(s.(reached := s.reached + 1), t, if t == 0 then LWait else NWait)
    case LWait => if s.reached < |s.th| then s else At(s, t, LReset)
    case LReset => At(s.(reached := 0), t, LSense)
    case LSense => At(s, t, LRelease(s.sense))
    case LRelease(sense) => At(s.(sense := !sense, released := s.released + 1), t, Flip)
    case NWait => if s.sense != me.sense then s else At(s, t, Flip)
    case Flip => s.(th := s.th[t := me.(pc := Out, sense := !me.sense)])
  }

  /** The threads' sense starts opposite to the communicator's. */
  function Init(n: nat): State { State(0, true, seq(n, _ => Thread(Out, false, 0)), 0) }

  // ------------------------------------------------------------------ the invariant

  /** Barriers a thread has counted itself into. */
  function Arrivals(th: Thread): int { if th.pc.Arrive? then th.calls - 1 else th.calls }

  /** Barriers a thread has been let through. */
  function Passed(th: Thread): int { if th.pc.Out? || th.pc.Flip? then th.calls else th.calls - 1 }

  predicate Leads(pc: PC) { pc.LWait? || pc.LReset? || pc.LSense? || pc.LRelease? }

  predicate AfterReset(pc: PC) { pc.LSense? || pc.LRelease? }

  /** Who is counted into the barrier that comes after `released` ones. */
  ghost function Arrived(released: nat, ths: seq<Thread>): (r: seq<bool>)
    ensures |r| == |ths|
  {
    seq(|ths|, t requires 0 <= t < |ths| => Arrivals(ths[t]) > released)
  }

  predicate ThreadOk(released: nat, t: nat, th: Thread) {
    && 0 <= Passed(th) <= released <= Arrivals(th) <= released + 1
    && released <= Passed(th) + 1
    && th.sense == ((if th.pc.Flip? then th.calls - 1 else Passed(th)) % 2 != 0)
    && (t == 0 ==> !th.pc.NWait? && Passed(th) == released)
    && (t > 0 ==> !Leads(th.pc))
    && (th.pc.LRelease? ==> th.pc.sense == (released % 2 == 0))
  }

  ghost predicate CountOk(released: nat, reached: nat, ths: seq<Thread>)
    requires |ths| > 0
  {
    && reached == (if AfterReset(ths[0].pc) then 0 else Count(Arrived(released, ths)))
    && (ths[0].pc.LReset? || AfterReset(ths[0].pc) ==> forall t :: 0 <= t < |ths| ==> Arrivals(ths[t]) > released)
  }

  ghost predicate Inv(n: nat, s: State) {
    && |s.th| == n > 0
    && s.sense == (s.released % 2 == 0)
    && (forall t :: 0 <= t < n ==> ThreadOk(s.released, t, s.th[t]))
    && CountOk(s.released, s.reached, s.th)
  }

  lemma InitInv(n: nat)
    requires n > 0
    ensures Inv(n, Init(n))
  {
    Full(Arrived(0, Init(n).th));
  }

  lemma SameArrivals(released: nat, ths: seq<Thread>, t: nat, th: Thread)
    requires t < |ths| && Arrivals(th) == Arrivals(ths[t])
    ensures Arrived(released, ths[t := th]) == Arrived(released, ths)
  {
  }

  /** A step that counts nobody in and does not release. */
  lemma MoveKeeps(n: nat, s: State, t: nat, th: Thread, reached: nat)
    requires Inv(n, s) && t < n
    requires Arrivals(th) == Arrivals(s.th[t]) && ThreadOk(s.released, t, th)
    requires t > 0 ==> reached == s.reached
    requires t == 0 ==>
               && reached == (if AfterReset(th.pc) then 0 else Count(Arrived(s.released, s.th)))
               && (th.pc.LReset? || AfterReset(th.pc) ==> forall u :: 0 <= u < n ==> Arrivals(s.th[u]) > s.released)
    ensures Inv(n, s.(th := s.th[t := th], reached := reached))
  {
    hide ThreadOk;
    SameArrivals(s.released, s.th, t, th);
  }

  lemma ArriveKeeps(n: nat, s: State, t: nat)
    requires Inv(n, s) && t < n && s.th[t].pc.Arrive?
    ensures Inv(n, Step(s, t))
  {
    var s' := Step(s, t);
    assert ThreadOk(s.released, t, s.th[t]);
    Raise(Arrived(s.released, s.th), t);
    assert Arrived(s.released, s'.th) == Arrived(s.released, s.th)[t := true];
    assert !AfterReset(s.th[0].pc) && !s.th[0].pc.LReset?;
  }

  /** The full count means everybody has arrived, and the reset then loses no arrival. */
  lemma WaitKeeps(n: nat, s: State, t: nat)
    requires Inv(n, s) && t < n && s.th[t].pc.LWait?
    ensures Inv(n, Step(s, t))
  {
    assert ThreadOk(s.released, t, s.th[t]);
    Full(Arrived(s.released, s.th));
    if s.reached >= n {
      forall u | 0 <= u < n ensures Arrivals(s.th[u]) > s.released { assert Arrived(s.released, s.th)[u]; }
      MoveKeeps(n, s, t, s.th[t].(pc := LReset), s.reached);
    }
  }

  lemma ReleaseKeeps(n: nat, s: State, t: nat)
    requires Inv(n, s) && t < n && s.th[t].pc.LRelease?
    ensures Inv(n, Step(s, t))
  {
    var s' := Step(s, t);
    assert ThreadOk(s.released, t, s.th[t]);
    forall u | 0 <= u < n ensures ThreadOk(s'.released, u, s'.th[u]) {
      assert ThreadOk(s.released, u, s.th[u]);
      assert Arrivals(s.th[u]) > s.released;
    }
    Full(Arrived(s'.released, s'.th));
  }

  lemma OtherKeeps(n: nat, s: State, t: nat)
    requires Inv(n, s) && t < n && !s.th[t].pc.Arrive? && !s.th[t].pc.LWait? && !s.th[t].pc.LRelease?
    ensures Inv(n, Step(s, t))
  {
    hide Arrived;
    assert ThreadOk(s.released, t, s.th[t]);
    var s' := Step(s, t);
    MoveKeeps(n, s, t, s'.th[t], s'.reached);
    assert s' == s.(th := s.th[t := s'.th[t]], reached := s'.reached);
  }

  lemma StepInv(n: nat, s: State, t: nat)
    requires Inv(n, s) && t < n
    ensures Inv(n, Step(s, t))
  {
    hide ThreadOk, CountOk, Step;
    match s.th[t].pc
    case Arrive => ArriveKeeps(n, s, t);
    case LWait => WaitKeeps(n, s, t);
    case LRelease(_) => ReleaseKeeps(n, s, t);
    case _ => OtherKeeps(n, s, t);
  }
}

/** What the barrier promises over every run. */
module SenseBarrierRuns {
  import opened Counting
  import opened SenseBarrier

  type Schedule = seq<nat>

  predicate Legal(n: nat, sched: Schedule) { forall i :: 0 <= i < |sched| ==> sched[i] < n }

  ghost function After(n: nat, sched: Schedule): (s: State)
    requires n > 0 && Legal(n, sched)
    ensures |s.th| == n
  {
    if sched == [] then Init(n) else Step(After(n, sched[..|sched| - 1]), sched[|sched| - 1])
  }

  lemma {:induction false} EveryRun(n: nat, sched: Schedule)
    requires n > 0 && Legal(n, sched)
    ensures Inv(n, After(n, sched))
  {
    hide Inv, Step, Init;
    if sched == [] {
      InitInv(n);
    } else {
      EveryRun(n, sched[..|sched| - 1]);
      StepInv(n, After(n, sched[..|sched| - 1]), sched[|sched| - 1]);
    }
  }

  /** No thread passes its k-th barrier before every thread has entered its own, and none is two ahead. */
  lemma {:induction false} NobodyLeavesEarly(n: nat, sched: Schedule, t: nat, u: nat)
    requires n > 0 && Legal(n, sched) && t < n && u < n
    ensures var s := After(n, sched);
            && Passed(s.th[t]) <= Arrivals(s.th[u]) <= s.th[u].calls
            && s.th[u].calls <= Passed(s.th[t]) + 2
            && s.released - 1 <= Passed(s.th[t]) <= s.released <= Arrivals(s.th[u])
  {
    EveryRun(n, sched);
    var s := After(n, sched);
    assert ThreadOk(s.released, t, s.th[t]) && ThreadOk(s.released, u, s.th[u]);
  }

  /** A waiting thread is let through exactly when thread 0 has released its barrier. */
  lemma {:induction false} SenseIsExact(n: nat, sched: Schedule, t: nat)
    requires n > 0 && Legal(n, sched) && t < n
    ensures var s := After(n, sched);
            s.th[t].pc.NWait? ==> (s.sense == s.th[t].sense <==> s.released == s.th[t].calls)
  {
    EveryRun(n, sched);
    var s := After(n, sched);
    assert ThreadOk(s.released, t, s.th[t]);
    assert s.sense == (s.released % 2 == 0);
    hide Inv;
    if s.th[t].pc.NWait? { SenseTells(s.released, s.sense, t, s.th[t]); }
  }

  lemma SenseTells(released: nat, sense: bool, t: nat, th: Thread)
    requires ThreadOk(released, t, th) && th.pc.NWait? && sense == (released % 2 == 0)
    ensures sense == th.sense <==> released == th.calls
  {
    assert th.calls == released || th.calls == released + 1;
    OddEven(released);
  }

  lemma OddEven(k: nat)
    ensures k % 2 == 0 <==> (k + 1) % 2 != 0
  {
  }

  /** The count is exact until thread 0 resets it, and at the reset everybody is in. */
  lemma {:induction false} ResetLosesNothing(n: nat, sched: Schedule, u: nat)
    requires n > 0 && Legal(n, sched) && u < n
    ensures var s := After(n, sched);
            && (!AfterReset(s.th[0].pc) ==> s.reached == Count(Arrived(s.released, s.th)))
            && (s.th[0].pc.LReset? || AfterReset(s.th[0].pc) ==> Arrivals(s.th[u]) == s.released + 1)
            && (u > 0 && AfterReset(s.th[0].pc) ==> s.th[u].pc.NWait?)
  {
    EveryRun(n, sched);
    var s := After(n, sched);
    assert ThreadOk(s.released, u, s.th[u]);
  }

  /** Once every thread has entered, one of them can move. */
  lemma {:induction false} NoDeadlock(n: nat, sched: Schedule)
    requires n > 0 && Legal(n, sched)
    requires AllEntered(After(n, sched))
    ensures CanMove(After(n, sched))
  {
    EveryRun(n, sched);
    hide Inv, AllEntered, CanMove;
    SomeoneMoves(n, After(n, sched));
  }

  /** Nobody is outside the barrier that comes next. */
  predicate AllEntered(s: State) {
    forall t :: 0 <= t < |s.th| && s.th[t].pc.Out? ==> s.th[t].calls > s.released
  }

  lemma SomeoneMoves(n: nat, s: State)
    requires Inv(n, s) && AllEntered(s)
    ensures CanMove(s)
  {
    if t :| 0 <= t < n && !s.th[t].pc.LWait? && !s.th[t].pc.NWait? {
      Moves(s, t);
    } else if t :| 0 <= t < n && s.th[t].pc.NWait? && s.released == s.th[t].calls {
      assert ThreadOk(s.released, t, s.th[t]);
      SenseTells(s.released, s.sense, t, s.th[t]);
      Moves(s, t);
    } else {
      forall t | 0 <= t < n ensures Arrived(s.released, s.th)[t] { assert ThreadOk(s.released, t, s.th[t]); }
      Full(Arrived(s.released, s.th));
      assert ThreadOk(s.released, 0, s.th[0]);
      Moves(s, 0);
    }
  }

  ghost predicate CanMove(s: State) { exists t :: 0 <= t < |s.th| && Step(s, t) != s }

  lemma Moves(s: State, t: nat)
    requires t < |s.th| && Step(s, t).th[t].pc != s.th[t].pc
    ensures CanMove(s)
  {
  }
}

/** The barrier's shared fields, updated in place, one atomic action a call. */
module SenseBarrierObject {
  import opened SenseBarrier
  import opened SenseBarrierRuns

  class PureCommProcessDetail {
    const num_threads: nat
    var num_threads_reached_barrier: nat
    var comm_barrier_sense: bool
    var threads: seq<Thread>

    // history
    ghost var released: nat

    ghost function View(): State
      reads this
    {
      State(num_threads_reached_barrier, comm_barrier_sense, threads, released)
    }

    ghost predicate Valid()
      reads this
    {
      Inv(num_threads, View())
    }

    constructor (n: nat)
      requires n > 0
      ensures num_threads == n && Valid() && View() == Init(n)
    {
      num_threads := n;
      num_threads_reached_barrier, comm_barrier_sense := 0, true;
      threads, released := seq(n, _ => Thread(Out, false, 0)), 0;
      new;
      InitInv(n);
    }

    method MoveTo(t: nat, pc: PC)
      requires t < |threads|
      modifies this`threads
      ensures View() == At(old(View()), t, pc)
    {
      threads := threads[t := threads[t].(pc := pc)];
    }

    /** Thread t's next atomic action in Barrier. */
    method Barrier(t: nat)
      requires Valid() && t < num_threads
      modifies this
      ensures Valid() && View() == Step(old(View()), t)
    {
      StepInv(num_threads, View(), t);
      assert |threads| == num_threads;
      hide Inv;
      var me := threads[t];
      match me.pc
      case Out => threads := threads[t := me.(pc := Arrive, calls := me.calls + 1)];
      case Arrive =>
        num_threads_reached_barrier := num_threads_reached_barrier + 1;
        if t == 0 { MoveTo(t, LWait); } else { MoveTo(t, NWait); }
      case LWait => if num_threads_reached_barrier >= num_threads { MoveTo(t, LReset); }
      case LReset =>
        num_threads_reached_barrier := 0;
        MoveTo(t, LSense);
      case LSense => MoveTo(t, LRelease(comm_barrier_sense));
      case LRelease(curr_sense) =>
        comm_barrier_sense, released := !curr_sense, released + 1;
        MoveTo(t, Flip);
      case NWait => if comm_barrier_sense == me.sense { MoveTo(t, Flip); }
      case Flip => threads := threads[t := me.(pc := Out, sense := !me.sense)];
    }

    /** Any interleaving of the threads is a run of the machine. */
    method RunSchedule(sched: Schedule)
      requires num_threads > 0 && Legal(num_threads, sched) && View() == Init(num_threads)
      modifies this
      ensures Valid() && View() == After(num_threads, sched)
    {
      InitInv(num_threads);
      var i := 0;
      while i < |sched|
        invariant 0 <= i <= |sched|
        invariant Valid() && View() == After(num_threads, sched[..i])
      {
        hide Inv, Step;
        assert sched[..i + 1][..i] == sched[..i];
        Barrier(sched[i]);
        i := i + 1;
      }
      assert sched[..|sched|] == sched;
    }
  }
}
