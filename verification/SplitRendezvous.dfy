/**
  The rendezvous inside Split: every thread of the process writes its details, the
  others count themselves in (up and down on alternate splits), thread 0 then reads
  all details and writes each thread's result, and turns the phase they spin on.
 */
module SplitRendezvous {
  import opened Counting
  import opened Options

  datatype PC =
    | Out
    | LPhase | LCount(up: bool) | LSet(i: nat) | LInvert          // thread 0
    | NPhase | NCheck(curr: bool) | NAdd(curr: bool, up: bool) | NSpin(curr: bool)   // the others
    | Take

  /** A thread's slot of split_details: the call whose details it holds, and the call whose result. */
  datatype Slot = Slot(details: nat, result: Option<nat>)

  /** `calls` counts the splits entered, `taken` lists the results returned from. */
  datatype Thread = Thread(pc: PC, calls: nat, taken: seq<nat>)

  datatype State = State(
    reached: int,           // num_threads_reached
    up: bool,               // barrier_phase: counting up?
    slots: seq<Slot>,
    th: seq<Thread>,
    inverted: nat)          // history: splits thread 0 has let go

  function At(s: State, t: nat, pc: PC): State
    requires t < |s.th|
  {
    s.(th := s.th[t := s.th[t].(pc := pc)])
  }

  ghost predicate Shape(n: nat, s: State) { |s.th| == |s.slots| == n > 0 }

  function Step(n: nat, s: State, t: nat): (s': State)
    requires Shape(n, s) && t < n
    ensures Shape(n, s')
  {
    var me := s.th[t];
    match me.pc
    case Out =>
      s.(slots := s.slots[t := Slot(me.calls + 1, None)],
         th := s.th[t := me.(pc := if t == 0 then LPhase else NPhase, calls := me.calls + 1)])
    // AllThreadsReached
    case LPhase => At(s, t, LCount(s.up))
    case LCount(up) => At(s, t, if s.reached == (if up then n - 1 else 0) then LSet(0) else LPhase)
    case LSet(i) =>
      if i >= n then At(s, t, LInvert)
      else At(s.(slots := s.slots[i := s.slots[i].(result := Some(s.slots[i].details))]), t, LSet(i + 1))
    case LInvert => At(s.(up := !s.up, inverted := s.inverted + 1), t, Take)
    // NonLeaderThreadReached
    case NPhase => At(s, t, NCheck(s.up))
    case NCheck(curr) => At(s, t, NAdd(curr, s.up))
    case NAdd(curr, up) => At(s.(reached := if up then s.reached + 1 else s.reached - 1), t, NSpin(curr))
    case NSpin(curr) => if s.up == curr then s else At(s, t, Take)
    case Take =>
      var r := s.slots[t].result;
      s.(th := s.th[t := me.(pc := Out, taken := if r.Some? then me.taken + [r.value] else me.taken)])
  }

  function Init(n: nat): State {
    State(0, true, seq(n, _ => Slot(0, None)), seq(n, _ => Thread(Out, 0, [])), 0)
  }

  // ------------------------------------------------------------------ the invariant

  predicate Leads(pc: PC) { pc.LPhase? || pc.LCount? || Reading(pc) }

  /** Thread 0 has seen everybody and has not yet let them go. */
  predicate Reading(pc: PC) { pc.LSet? || pc.LInvert? }

  predicate Follows(pc: PC) { pc.NPhase? || pc.NCheck? || pc.NAdd? || pc.NSpin? }

  /** Splits a thread other than thread 0 has counted itself into. */
  function Arrivals(th: Thread): int {
    if th.pc.NPhase? || th.pc.NCheck? || th.pc.NAdd? then th.calls - 1 else th.calls
  }

  ghost function Arrived(inverted: nat, ths: seq<Thread>): (r: seq<bool>)
    requires |ths| > 0
    ensures |r| == |ths| - 1
  {
    seq(|ths| - 1, i requires 0 <= i < |ths| - 1 => Arrivals(ths[i + 1]) > inverted)
  }

  /** Splits a thread has been let out of. */
  function Passed(th: Thread): int { if th.pc.Out? || th.pc.Take? then th.calls else th.calls - 1 }

  predicate ThreadOk(inverted: nat, up: bool, t: nat, th: Thread, lead: PC) {
    && 0 <= Passed(th) <= inverted <= Passed(th) + 1
    && (t == 0 ==> !Follows(th.pc) && Passed(th) == inverted)
    && (t > 0 ==> !Leads(th.pc) && inverted <= Arrivals(th) <= inverted + 1)
    && (th.pc.LCount? ==> th.pc.up == up)
    && (th.pc.NCheck? ==> th.pc.curr == up)
    && (th.pc.NAdd? ==> th.pc.curr == th.pc.up == up)
    && (th.pc.NSpin? ==> (th.pc.curr == up <==> th.calls == inverted + 1))
    && (t > 0 && Reading(lead) ==> Arrivals(th) == inverted + 1)
  }

  /** Details are a thread's own latest; a result stays until its thread's next split. */
  predicate SlotOk(inverted: nat, t: nat, th: Thread, slot: Slot, lead: PC) {
    && slot.details == th.calls
    && (th.calls > 0 && inverted >= th.calls ==> slot.result == Some(th.calls))
    && (lead.LSet? && t < lead.i ==> slot.result == Some(th.calls))
    && (lead.LInvert? ==> slot.result == Some(th.calls))
    && |th.taken| == (if th.pc.Out? then th.calls else th.calls - 1)
    && forall k :: 0 <= k < |th.taken| ==> th.taken[k] == k + 1
  }

  ghost predicate CountOk(inverted: nat, up: bool, reached: int, ths: seq<Thread>)
    requires |ths| > 0
  {
    && up == (inverted % 2 == 0)
    && reached == if up then Count(Arrived(inverted, ths)) else |ths| - 1 - Count(Arrived(inverted, ths))
  }

  ghost predicate Inv(n: nat, s: State) {
    && Shape(n, s)
    && CountOk(s.inverted, s.up, s.reached, s.th)
    && (forall t :: 0 <= t < n ==> ThreadOk(s.inverted, s.up, t, s.th[t], s.th[0].pc))
    && (forall t :: 0 <= t < n ==> SlotOk(s.inverted, t, s.th[t], s.slots[t], s.th[0].pc))
  }

  lemma InitInv(n: nat)
    requires n > 0
    ensures Inv(n, Init(n))
  {
    Full(Arrived(0, Init(n).th));
  }

  lemma Here(n: nat, s: State, t: nat)
    requires Inv(n, s) && t < n
    ensures ThreadOk(s.inverted, s.up, t, s.th[t], s.th[0].pc) && SlotOk(s.inverted, t, s.th[t], s.slots[t], s.th[0].pc)
  {
  }

  /** A step that counts nobody in and does not turn the phase. */
  lemma MoveKeeps(n: nat, s: State, t: nat, th: Thread, slots: seq<Slot>)
    requires Inv(n, s) && t < n && |slots| == n
    requires t > 0 ==> Arrivals(th) == Arrivals(s.th[t])
    requires ThreadOk(s.inverted, s.up, t, th, if t == 0 then th.pc else s.th[0].pc)
    requires SlotOk(s.inverted, t, th, slots[t], if t == 0 then th.pc else s.th[0].pc)
    requires t > 0 ==> slots == s.slots[t := slots[t]]
    requires t == 0 ==> forall u :: 0 < u < n ==>
               ThreadOk(s.inverted, s.up, u, s.th[u], th.pc) && SlotOk(s.inverted, u, s.th[u], slots[u], th.pc)
    ensures Inv(n, s.(th := s.th[t := th], slots := slots))
  {
    hide ThreadOk, SlotOk;
    assert Arrived(s.inverted, s.th[t := th]) == Arrived(s.inverted, s.th);
  }

  lemma AddKeeps(n: nat, s: State, t: nat)
    requires Inv(n, s) && t < n && s.th[t].pc.NAdd?
    ensures Inv(n, Step(n, s, t))
  {
    Here(n, s, t);
    var s' := Step(n, s, t);
    Raise(Arrived(s.inverted, s.th), t - 1);
    assert Arrived(s.inverted, s'.th) == Arrived(s.inverted, s.th)[t - 1 := true];
  }

  /** Thread 0 goes on only when the count says that everybody has written its details. */
  lemma CountKeeps(n: nat, s: State, t: nat)
    requires Inv(n, s) && t < n && s.th[t].pc.LCount?
    ensures Inv(n, Step(n, s, t))
  {
    Here(n, s, t);
    var s' := Step(n, s, t);
    var arrived := Arrived(s.inverted, s.th);
    Full(arrived);
    forall u | 0 < u < n
      ensures ThreadOk(s.inverted, s.up, u, s.th[u], s'.th[0].pc) && SlotOk(s.inverted, u, s.th[u], s.slots[u], s'.th[0].pc)
    {
      Here(n, s, u);
      if s'.th[0].pc.LSet? { assert arrived[u - 1]; }
    }
    MoveKeeps(n, s, t, s'.th[t], s.slots);
  }

  lemma SetKeeps(n: nat, s: State, t: nat)
    requires Inv(n, s) && t < n && s.th[t].pc.LSet?
    ensures Inv(n, Step(n, s, t))
  {
    Here(n, s, t);
    var s' := Step(n, s, t);
    forall u | 0 <= u < n
      ensures ThreadOk(s.inverted, s.up, u, s'.th[u], s'.th[0].pc) && SlotOk(s.inverted, u, s'.th[u], s'.slots[u], s'.th[0].pc)
    {
      Here(n, s, u);
    }
    MoveKeeps(n, s, t, s'.th[t], s'.slots);
  }

  lemma InvertKeeps(n: nat, s: State, t: nat)
    requires Inv(n, s) && t < n && s.th[t].pc.LInvert?
    ensures Inv(n, Step(n, s, t))
  {
    Here(n, s, t);
    var s' := Step(n, s, t);
    forall u | 0 <= u < n
      ensures ThreadOk(s'.inverted, s'.up, u, s'.th[u], s'.th[0].pc) && SlotOk(s'.inverted, u, s'.th[u], s'.slots[u], s'.th[0].pc)
    {
      Here(n, s, u);
    }
    InvertCount(n, s);
  }

  lemma InvertCount(n: nat, s: State)
    requires Inv(n, s) && s.th[0].pc.LInvert?
    ensures CountOk(s.inverted + 1, !s.up, s.reached, s.th[0 := s.th[0].(pc := Take)])
  {
    hide SlotOk;
    var ths := s.th[0 := s.th[0].(pc := Take)];
    forall i | 0 <= i < n - 1 ensures Arrived(s.inverted, s.th)[i] && !Arrived(s.inverted + 1, ths)[i] {
      Here(n, s, i + 1);
    }
    Full(Arrived(s.inverted, s.th));
    Full(Arrived(s.inverted + 1, ths));
  }

  lemma OtherKeeps(n: nat, s: State, t: nat)
    requires Inv(n, s) && t < n
    requires var pc := s.th[t].pc; !pc.NAdd? && !pc.LCount? && !Reading(pc)
    ensures Inv(n, Step(n, s, t))
  {
    hide Arrived, CountOk;
    var s' := Step(n, s, t);
    Here(n, s, t);
    Here(n, s, 0);
    forall u | 0 < u < n && t == 0
      ensures ThreadOk(s.inverted, s.up, u, s.th[u], s'.th[0].pc) && SlotOk(s.inverted, u, s.th[u], s'.slots[u], s'.th[0].pc)
    {
      Here(n, s, u);
    }
    MoveKeeps(n, s, t, s'.th[t], s'.slots);
    assert s' == s.(th := s.th[t := s'.th[t]], slots := s'.slots);
  }

  lemma StepInv(n: nat, s: State, t: nat)
    requires Inv(n, s) && t < n
    ensures Inv(n, Step(n, s, t))
  {
    hide ThreadOk, SlotOk, CountOk, Step;
    match s.th[t].pc
    case NAdd(_, _) => AddKeeps(n, s, t);
    case LCount(_) => CountKeeps(n, s, t);
    case LSet(_) => SetKeeps(n, s, t);
    case LInvert => InvertKeeps(n, s, t);
    case _ => OtherKeeps(n, s, t);
  }
}

/** What the rendezvous promises over any number of successive splits. */
module SplitRendezvousRuns {
  import opened Counting
  import opened Options
  import opened SplitRendezvous

  type Schedule = seq<nat>

  predicate Legal(n: nat, sched: Schedule) { forall i :: 0 <= i < |sched| ==> sched[i] < n }

  ghost function After(n: nat, sched: Schedule): (s: State)
    requires n > 0 && Legal(n, sched)
    ensures Shape(n, s)
  {
    if sched == [] then Init(n) else Step(n, After(n, sched[..|sched| - 1]), sched[|sched| - 1])
  }

  lemma {:induction false} EveryRun(n: nat, sched: Schedule)
    requires n > 0 && Legal(n, sched)
    ensures Inv(n, After(n, sched))
  {
    hide Inv, Step, Init;
    if sched == [] {
      InitInv(n);
    } else {
      EveryRun(n, sched[..|sched| - 1]);
      StepInv(n, After(n, sched[..|sched| - 1]), sched[|sched| - 1]);
    }
  }

  lemma Nothing(n: nat)
    requires n > 0
    ensures After(n, []) == Init(n)
  {
  }

  lemma {:induction false} Next(n: nat, sched: Schedule, i: nat)
    requires n > 0 && Legal(n, sched) && i < |sched|
    ensures After(n, sched[..i + 1]) == Step(n, After(n, sched[..i]), sched[i])
  {
    hide Inv;
    assert sched[..i + 1][..i] == sched[..i];
  }

  /** While thread 0 reads the details, every thread's are those of this very split. */
  lemma {:induction false} DetailsComplete(n: nat, sched: Schedule, t: nat)
    requires n > 0 && Legal(n, sched) && t < n
    ensures var s := After(n, sched);
            Reading(s.th[0].pc) ==> s.slots[t].details == s.th[t].calls == s.th[0].calls && (t > 0 ==> s.th[t].pc.NSpin?)
  {
    EveryRun(n, sched);
    var s := After(n, sched);
    Here(n, s, t);
    Here(n, s, 0);
  }

  /** A thread returns from its k-th split with the result that thread 0 computed from its k-th details. */
  lemma {:induction false} ResultsMatch(n: nat, sched: Schedule, t: nat, k: nat)
    requires n > 0 && Legal(n, sched) && t < n
    ensures var th := After(n, sched).th[t];
            && |th.taken| == (if th.pc.Out? then th.calls else th.calls - 1)
            && (k < |th.taken| ==> th.taken[k] == k + 1)
  {
    EveryRun(n, sched);
    Here(n, After(n, sched), t);
  }

  /** The result is there, and this split's, whenever a thread is let through. */
  lemma {:induction false} ResultReady(n: nat, sched: Schedule, t: nat)
    requires n > 0 && Legal(n, sched) && t < n
    ensures var s := After(n, sched); s.th[t].pc.Take? ==> s.slots[t].result == Some(s.th[t].calls)
  {
    EveryRun(n, sched);
    Here(n, After(n, sched), t);
  }

  /** The count stays between 0 and n - 1, and tells exactly who has arrived, in either phase. */
  lemma {:induction false} CountBounded(n: nat, sched: Schedule)
    requires n > 0 && Legal(n, sched)
    ensures var s := After(n, sched);
            && 0 <= s.reached <= n - 1
            && var arrived := Count(Arrived(s.inverted, s.th));
               s.reached == if s.inverted % 2 == 0 then arrived else n - 1 - arrived
  {
    EveryRun(n, sched);
  }

  /** Nobody is let out of a split before everybody has entered it. */
  lemma {:induction false} NobodyLeavesEarly(n: nat, sched: Schedule, t: nat, u: nat)
    requires n > 0 && Legal(n, sched) && t < n && u < n
    ensures var s := After(n, sched);
            Passed(s.th[t]) <= s.inverted <= s.th[u].calls <= Passed(s.th[t]) + 2
  {
    EveryRun(n, sched);
    Here(n, After(n, sched), t);
    Here(n, After(n, sched), u);
  }

  /** Once every thread has entered the split, it cannot get stuck. */
  lemma {:induction false} NoDeadlock(n: nat, sched: Schedule)
    requires n > 0 && Legal(n, sched)
    requires AllEntered(After(n, sched))
    ensures GoesOn(n, After(n, sched))
  {
    EveryRun(n, sched);
    hide Inv, AllEntered, GoesOn;
    SomeoneMoves(n, After(n, sched));
  }

  /** Nobody is outside the split that comes next. */
  predicate AllEntered(s: State) {
    forall t :: 0 <= t < |s.th| && s.th[t].pc.Out? ==> s.th[t].calls > s.inverted
  }

  /** Another thread's step changes something, or thread 0's does, beyond looking again. */
  ghost predicate GoesOn(n: nat, s: State)
    requires Shape(n, s)
  {
    || (exists t :: 0 < t < n && Step(n, s, t) != s)
    || (s.th[0].pc.LCount? && Step(n, s, 0).th[0].pc.LSet?)
    || (!s.th[0].pc.LCount? && Step(n, s, 0) != s)
  }

  lemma SomeoneMoves(n: nat, s: State)
    requires Inv(n, s) && AllEntered(s)
    ensures GoesOn(n, s)
  {
    Here(n, s, 0);
    if !s.th[0].pc.LCount? {
      LeaderMoves(n, s);
    } else if forall t :: 0 < t < n ==> Step(n, s, t) == s {
      LeaderSeesAll(n, s);
    }
  }

  lemma LeaderMoves(n: nat, s: State)
    requires Shape(n, s) && !s.th[0].pc.LCount? && ThreadOk(s.inverted, s.up, 0, s.th[0], s.th[0].pc)
    ensures Step(n, s, 0) != s
  {
    assert Step(n, s, 0).th[0].pc != s.th[0].pc;
  }

  lemma LeaderSeesAll(n: nat, s: State)
    requires Inv(n, s) && s.th[0].pc.LCount? && forall t :: 0 < t < n ==> Step(n, s, t) == s
    ensures Step(n, s, 0).th[0].pc.LSet?
  {
    hide SlotOk;
    Here(n, s, 0);
    forall i | 0 <= i < n - 1 ensures Arrived(s.inverted, s.th)[i] { Waiting(n, s, i + 1); }
    Full(Arrived(s.inverted, s.th));
  }

  lemma Waiting(n: nat, s: State, t: nat)
    requires Inv(n, s) && 0 < t < n && Step(n, s, t) == s
    ensures s.th[t].pc.NSpin? && Arrivals(s.th[t]) > s.inverted
  {
    Here(n, s, t);
    assert Step(n, s, t).th[t].pc == s.th[t].pc;
  }
}

/** The rendezvous' shared fields, updated in place, one atomic action a call. */
module SplitRendezvousObject {
  import opened Options
  import opened SplitRendezvous
  import opened SplitRendezvousRuns

  class PureCommProcessDetail {
    const num_pure_ranks_this_process: nat
    const split_details: array<Slot>
    var num_threads_reached: int
    var barrier_phase: bool
    var threads: seq<Thread>

    // history
    ghost var inverted: nat

    ghost function View(): State
      reads this, split_details
    {
      State(num_threads_reached, barrier_phase, split_details[..], threads, inverted)
    }

    ghost predicate Valid()
      reads this, split_details
    {
      Inv(num_pure_ranks_this_process, View())
    }

    constructor (n: nat)
      requires n > 0
      ensures num_pure_ranks_this_process == n && Valid() && View() == Init(n) && fresh(split_details)
    {
      num_pure_ranks_this_process := n;
      split_details := new Slot[n](_ => Slot(0, None));
      num_threads_reached, barrier_phase := 0, true;
      threads, inverted := seq(n, _ => Thread(Out, 0, [])), 0;
      new;
      assert split_details[..] == seq(n, _ => Slot(0, None));
      InitInv(n);
    }

    method MoveTo(t: nat, pc: PC)
      requires t < |threads|
      modifies this`threads
      ensures View() == At(old(View()), t, pc)
    {
      threads := threads[t := threads[t].(pc := pc)];
    }

    /** Thread 0's next action: AllThreadsReached, the results, InvertBarrierPhase. */
    method LeaderSplit()
      requires Shape(num_pure_ranks_this_process, View()) && Leads(threads[0].pc)
      modifies this, split_details
      ensures View() == Step(num_pure_ranks_this_process, old(View()), 0)
    {
      var n := num_pure_ranks_this_process;
      match threads[0].pc
      case LPhase => MoveTo(0, LCount(barrier_phase));
      case LCount(up) =>
        var all_reached := num_threads_reached == if up then n - 1 else 0;
        if all_reached { MoveTo(0, LSet(0)); } else { MoveTo(0, LPhase); }
      case LSet(i) =>
        if i >= n {
          MoveTo(0, LInvert);
        } else {
          split_details[i] := split_details[i].(result := Some(split_details[i].details));
          MoveTo(0, LSet(i + 1));
        }
      case LInvert =>
        barrier_phase, inverted := !barrier_phase, inverted + 1;
        MoveTo(0, Take);
    }

    /** Another thread's next action: NonLeaderThreadReached and its wait. */
    method FollowerSplit(t: nat)
      requires Shape(num_pure_ranks_this_process, View()) && t < num_pure_ranks_this_process && Follows(threads[t].pc)
      modifies this
      ensures View() == Step(num_pure_ranks_this_process, old(View()), t)
    {
      match threads[t].pc
      case NPhase => MoveTo(t, NCheck(barrier_phase));
      case NCheck(curr) => MoveTo(t, NAdd(curr, barrier_phase));
      case NAdd(curr, up) =>
        if up { num_threads_reached := num_threads_reached + 1; } else { num_threads_reached := num_threads_reached - 1; }
        MoveTo(t, NSpin(curr));
      case NSpin(curr) => if barrier_phase != curr { MoveTo(t, Take); }
    }

    /** Thread t's next atomic action in Split. */
    method Split(t: nat)
      requires Valid() && t < num_pure_ranks_this_process
      modifies this, split_details
      ensures Valid() && View() == Step(num_pure_ranks_this_process, old(View()), t)
    {
      StepInv(num_pure_ranks_this_process, View(), t);
      SplitRendezvous.Here(num_pure_ranks_this_process, View(), 0);
      SplitRendezvous.Here(num_pure_ranks_this_process, View(), t);
      assert Shape(num_pure_ranks_this_process, View());
      hide Inv;
      var me := threads[t];
      if me.pc.Out? {
        split_details[t] := Slot(me.calls + 1, None);
        threads := threads[t := me.(pc := if t == 0 then LPhase else NPhase, calls := me.calls + 1)];
      } else if me.pc.Take? {
        var r := split_details[t].result;
        threads := threads[t := me.(pc := Out, taken := if r.Some? then me.taken + [r.value] else me.taken)];
      } else if t == 0 {
        LeaderSplit();
      } else {
        FollowerSplit(t);
      }
    }

    /** Any interleaving of the threads is a run of the machine. */
    method RunSchedule(sched: Schedule)
      requires Valid() && num_pure_ranks_this_process > 0 && Legal(num_pure_ranks_this_process, sched)
      requires View() == Init(num_pure_ranks_this_process)
      modifies this, split_details
      ensures Valid() && View() == After(num_pure_ranks_this_process, sched)
    {
      Nothing(num_pure_ranks_this_process);
      hide After, Inv, Step, Init;
      var i := 0;
      while i < |sched|
        invariant 0 <= i <= |sched|
        invariant Valid() && View() == After(num_pure_ranks_this_process, sched[..i])
      {
        Next(num_pure_ranks_this_process, sched, i);
        Split(sched[i]);
        i := i + 1;
      }
      assert sched[..|sched|] == sched;
    }
  }
}
