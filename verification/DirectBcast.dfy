/**
  The direct-copy broadcast within a process: thread 0 publishes its buffer under a
  32-bit sequence number, every other thread copies from it and flips its own flag,
  and thread 0 waits for all flags.  Rounds follow each other without a barrier.
 */
module DirectBcast {

  /** Sequence numbers and flags wrap at 32 bits. */
  const SeqModulus: nat := 0x1_0000_0000

  datatype PC =
    | Out
    | StoreBuf | StoreSeq | WaitFlag(i: nat) | FlipOwn      // LeaderDirectCopyBcast
    | WaitSeq | Copy | Copying(from: nat) | Toggle          // NonLeaderDirectCopyBcast

  /** `seqNo` is the thread's thread_seq, `calls` the same count without wrap-around. */
  datatype Thread = Thread(pc: PC, seqNo: nat, calls: nat, got: seq<nat>)

  datatype State = State(
    buf: nat,                 // read_only_process_leader_buf, by the call of thread 0 it belongs to
    readySeq: nat,            // bcast_data_ready_seq
    doneFlag: nat,            // done_consuming_flag, thread 0's
    flags: seq<nat>,          // done_consuming_flags[t - 1].flag
    th: seq<Thread>,
    ready: nat)               // history: the call whose sequence number is published; 0 before the first

  function At(s: State, t: nat, pc: PC): State
    requires t < |s.th|
  {
    s.(th := s.th[t := s.th[t].(pc := pc)])
  }

  /** fetch_xor(1) on a flag of 0 or 1. */
  function Xor1(f: nat): nat { if f % 2 == 0 then f + 1 else f - 1 }

  function Wrap(k: nat): nat { k % SeqModulus }

  /** ++thread_seq on entry. */
  function Enter(th: Thread, pc: PC): Thread {
    th.(pc := pc, seqNo := Wrap(th.seqNo + 1), calls := th.calls + 1)
  }

  ghost predicate Shape(n: nat, s: State) { n >= 2 && |s.th| == n && |s.flags| == n - 1 }

  function LeaderStep(n: nat, s: State): (s': State)
    requires Shape(n, s)
    ensures Shape(n, s')
  {
    var me := s.th[0];
    match me.pc
    case Out => s.(th := s.th[0 := Enter(me, StoreBuf)])
    case StoreBuf => At(s.(buf := me.calls), 0, StoreSeq)
    case StoreSeq => At(s.(readySeq := me.seqNo, ready := me.calls), 0, WaitFlag(0))
    case WaitFlag(i) =>
      if i >= n - 1 then At(s, 0, FlipOwn)
      else if s.flags[i] != s.doneFlag then s
      else At(s, 0, WaitFlag(i + 1))
    case FlipOwn => At(s.(doneFlag := Xor1(s.doneFlag)), 0, Out)
    case _ => s
  }

  function FollowerStep(n: nat, s: State, t: nat): (s': State)
    requires Shape(n, s) && 0 < t < n
    ensures Shape(n, s')
  {
    var me := s.th[t];
    match me.pc
    case Out => s.(th := s.th[t := Enter(me, WaitSeq)])
    case WaitSeq => if s.readySeq != me.seqNo then s else At(s, t, Copy)
    case Copy => At(s, t, Copying(s.buf))
    case Copying(from) => s.(th := s.th[t := me.(pc := Toggle, got := me.got + [from])])
    case Toggle => At(s.(flags := s.flags[t - 1 := Xor1(s.flags[t - 1])]), t, Out)
    case _ => s
  }

  function Step(n: nat, s: State, t: nat): (s': State)
    requires Shape(n, s) && t < n
    ensures Shape(n, s')
  {
    if t == 0 then LeaderStep(n, s) else FollowerStep(n, s, t)
  }

  /** The published sequence number starts at -1, the flags at not consumed, the leader's at consumed. */
  function Init(n: nat): State
    requires n >= 2
  {
    State(0, SeqModulus - 1, 1, seq(n - 1, _ => 0), seq(n, _ => Thread(Out, 0, 0, [])), 0)
  }

  // ------------------------------------------------------------------ the invariant

  /** Finished calls: all started ones, but the one a thread is in. */
  function Done(th: Thread): int { if th.pc.Out? then th.calls else th.calls - 1 }

  function Parity(k: int): nat { k % 2 }

  predicate InCopy(pc: PC) { pc.Copy? || pc.Copying? || pc.Toggle? }

  predicate Published(pc: PC) { pc.WaitFlag? || pc.FlipOwn? }

  predicate ThreadOk(th: Thread, leads: bool) {
    && th.seqNo == Wrap(th.calls)
    && 0 <= Done(th)
    && (leads ==> !th.pc.WaitSeq? && !InCopy(th.pc))
    && (!leads ==> !th.pc.StoreBuf? && !th.pc.StoreSeq? && !Published(th.pc))
  }

  /** What thread 0's place says about the shared data. */
  predicate LeaderOk(n: nat, th: Thread, buf: nat, ready: nat, doneFlag: nat) {
    && ThreadOk(th, true)
    && doneFlag == Parity(Done(th) + 1)
    && ready == (if Published(th.pc) then th.calls else Done(th))
    && (Published(th.pc) || th.pc.StoreSeq? ==> buf == th.calls)
    && (th.pc.WaitFlag? ==> th.pc.i <= n - 1)
  }

  /** Thread t is in step with `done`, the leader's finished calls. */
  predicate FollowerOk(n: nat, t: nat, th: Thread, flag: nat, leader: Thread) {
    && ThreadOk(th, false)
    && flag == Parity(Done(th))
    && (Done(th) == Done(leader) || (Done(th) == Done(leader) + 1 && Published(leader.pc)))
    && (InCopy(th.pc) ==> Published(leader.pc) && Done(th) == Done(leader))
    && (leader.pc.WaitFlag? && t - 1 < leader.pc.i ==> Done(th) == leader.calls)
    && (leader.pc.FlipOwn? ==> Done(th) == leader.calls)
    && (th.pc.Copying? ==> th.pc.from == th.calls)
    && |th.got| == (if th.pc.Toggle? then th.calls else Done(th))
    && forall k :: 0 <= k < |th.got| ==> th.got[k] == k + 1
  }

  predicate SeqOk(readySeq: nat, ready: nat) {
    readySeq == if ready == 0 then SeqModulus - 1 else Wrap(ready)
  }

  ghost predicate Inv(n: nat, s: State) {
    && Shape(n, s)
    && SeqOk(s.readySeq, s.ready)
    && LeaderOk(n, s.th[0], s.buf, s.ready, s.doneFlag)
    && forall t :: 0 < t < n ==> FollowerOk(n, t, s.th[t], s.flags[t - 1], s.th[0])
  }

  lemma InitInv(n: nat)
    requires n >= 2
    ensures Inv(n, Init(n))
  {
  }

  lemma WrapNext(k: nat)
    ensures Wrap(Wrap(k) + 1) == Wrap(k + 1)
  {
  }

  lemma FlipParity(k: nat)
    ensures Xor1(Parity(k)) == Parity(k + 1)
  {
  }

  /** Nearby sequence numbers do not collide, wherever they wrap. */
  lemma NearbyDiffer(k: nat)
    ensures Wrap(k) != Wrap(k + 1) && Wrap(1) != SeqModulus - 1
    ensures Parity(k) != Parity(k + 1)
  {
  }

  /** The wait lets a thread through exactly when its own round is published. */
  lemma SeqExact(n: nat, s: State, t: nat)
    requires Inv(n, s) && 0 < t < n && s.th[t].pc.WaitSeq?
    ensures s.readySeq == s.th[t].seqNo <==> s.ready == s.th[t].calls
    ensures s.ready == s.th[t].calls || s.ready == s.th[t].calls - 1
  {
    hide Wrap, Parity;
    assert FollowerOk(n, t, s.th[t], s.flags[t - 1], s.th[0]);
    NearbyDiffer(Done(s.th[t]));
  }

  /** What a follower's step leaves alone. */
  lemma FollowerFrame(n: nat, s: State, t: nat)
    requires Shape(n, s) && 0 < t < n
    ensures var s' := FollowerStep(n, s, t);
            && s'.buf == s.buf && s'.readySeq == s.readySeq && s'.doneFlag == s.doneFlag && s'.ready == s.ready
            && (forall u :: 0 <= u < n && u != t ==> s'.th[u] == s.th[u])
            && (forall i :: 0 <= i < n - 1 && i != t - 1 ==> s'.flags[i] == s.flags[i])
  {
  }

  lemma FollowerOwn(n: nat, s: State, t: nat)
    requires Inv(n, s) && 0 < t < n
    ensures var s' := FollowerStep(n, s, t); FollowerOk(n, t, s'.th[t], s'.flags[t - 1], s.th[0])
  {
    hide Wrap, Parity, Xor1;
    assert FollowerOk(n, t, s.th[t], s.flags[t - 1], s.th[0]);
    WrapNext(s.th[t].calls);
    FlipParity(Done(s.th[t]));
    if s.th[t].pc.WaitSeq? { SeqExact(n, s, t); }
  }

  lemma FollowerKeeps(n: nat, s: State, t: nat)
    requires Inv(n, s) && 0 < t < n
    ensures Inv(n, FollowerStep(n, s, t))
  {
    hide FollowerStep, FollowerOk, LeaderOk, SeqOk;
    var s' := FollowerStep(n, s, t);
    FollowerFrame(n, s, t);
    FollowerOwn(n, s, t);
    forall u | 0 < u < n ensures FollowerOk(n, u, s'.th[u], s'.flags[u - 1], s'.th[0]) {
      assert FollowerOk(n, u, s.th[u], s.flags[u - 1], s.th[0]);
    }
  }

  lemma LeaderOwn(n: nat, s: State)
    requires Inv(n, s)
    ensures var s' := LeaderStep(n, s);
            SeqOk(s'.readySeq, s'.ready) && LeaderOk(n, s'.th[0], s'.buf, s'.ready, s'.doneFlag)
  {
    hide Wrap, Parity, Xor1;
    WrapNext(s.th[0].calls);
    FlipParity(Done(s.th[0]) + 1);
  }

  lemma LeaderKeeps(n: nat, s: State)
    requires Inv(n, s)
    ensures Inv(n, LeaderStep(n, s))
  {
    LeaderOwn(n, s);
    hide Wrap, Parity, Xor1, SeqOk;
    var s' := LeaderStep(n, s);
    forall u | 0 < u < n ensures FollowerOk(n, u, s'.th[u], s'.flags[u - 1], s'.th[0]) {
      assert FollowerOk(n, u, s.th[u], s.flags[u - 1], s.th[0]);
      if Published(s.th[0].pc) { FlagTells(n, s, u); }
    }
  }

  /** Thread 0's own flag equals thread u's exactly when u has finished the round thread 0 is in. */
  lemma FlagTells(n: nat, s: State, u: nat)
    requires Inv(n, s) && 0 < u < n && Published(s.th[0].pc)
    ensures s.flags[u - 1] == s.doneFlag <==> Done(s.th[u]) == s.th[0].calls
  {
    hide Wrap, Parity, Xor1, SeqOk;
    assert FollowerOk(n, u, s.th[u], s.flags[u - 1], s.th[0]);
    NearbyDiffer(Done(s.th[0]));
  }

  lemma StepInv(n: nat, s: State, t: nat)
    requires Inv(n, s) && t < n
    ensures Inv(n, Step(n, s, t))
  {
    hide Inv, LeaderStep, FollowerStep;
    if t == 0 { LeaderKeeps(n, s); } else { FollowerKeeps(n, s, t); }
  }
}

/** What the direct-copy broadcast promises over unboundedly many rounds. */
module DirectBcastRuns {
  import opened DirectBcast

  type Schedule = seq<nat>

  predicate Legal(n: nat, sched: Schedule) { forall i :: 0 <= i < |sched| ==> sched[i] < n }

  ghost function After(n: nat, sched: Schedule): (s: State)
    requires n >= 2 && Legal(n, sched)
    ensures Shape(n, s)
  {
    if sched == [] then Init(n) else Step(n, After(n, sched[..|sched| - 1]), sched[|sched| - 1])
  }

  lemma {:induction false} EveryRun(n: nat, sched: Schedule)
    requires n >= 2 && Legal(n, sched)
    ensures Inv(n, After(n, sched))
  {
    hide Inv, Step, Init;
    if sched == [] {
      InitInv(n);
    } else {
      EveryRun(n, sched[..|sched| - 1]);
      StepInv(n, After(n, sched[..|sched| - 1]), sched[|sched| - 1]);
    }
  }

  lemma Nothing(n: nat)
    requires n >= 2
    ensures After(n, []) == Init(n)
  {
  }

  lemma {:induction false} Next(n: nat, sched: Schedule, i: nat)
    requires n >= 2 && Legal(n, sched) && i < |sched|
    ensures After(n, sched[..i + 1]) == Step(n, After(n, sched[..i]), sched[i])
  {
    hide Inv;
    assert sched[..i + 1][..i] == sched[..i];
  }

  /** In its k-th call every other thread copies exactly the buffer of thread 0's k-th call. */
  lemma {:induction false} CopiesOwnRound(n: nat, sched: Schedule, t: nat, k: nat)
    requires n >= 2 && Legal(n, sched) && 0 < t < n
    ensures var th := After(n, sched).th[t];
            && Done(th) <= |th.got| <= th.calls
            && (k < |th.got| ==> th.got[k] == k + 1)
  {
    EveryRun(n, sched);
    var s := After(n, sched);
    assert FollowerOk(n, t, s.th[t], s.flags[t - 1], s.th[0]);
  }

  /** Thread 0 returns from its k-th call only when every thread has copied k buffers. */
  lemma {:induction false} RootReturnsLast(n: nat, sched: Schedule, t: nat)
    requires n >= 2 && Legal(n, sched) && 0 < t < n
    ensures var s := After(n, sched);
            && Done(s.th[0]) <= |s.th[t].got|
            && Done(s.th[0]) <= Done(s.th[t]) <= Done(s.th[0]) + 1
  {
    EveryRun(n, sched);
    var s := After(n, sched);
    assert FollowerOk(n, t, s.th[t], s.flags[t - 1], s.th[0]);
  }

  /** While a thread copies, thread 0 is still inside the same call, with its own buffer published. */
  lemma {:induction false} BufferStableWhileCopied(n: nat, sched: Schedule, t: nat)
    requires n >= 2 && Legal(n, sched) && 0 < t < n
    ensures var s := After(n, sched);
            InCopy(s.th[t].pc) ==> Published(s.th[0].pc) && s.th[0].calls == s.th[t].calls == s.buf
  {
    EveryRun(n, sched);
    var s := After(n, sched);
    assert FollowerOk(n, t, s.th[t], s.flags[t - 1], s.th[0]);
  }

  /** Although sequence numbers wrap, no round is missed and none is entered early. */
  lemma {:induction false} NoRoundMissed(n: nat, sched: Schedule, t: nat)
    requires n >= 2 && Legal(n, sched) && 0 < t < n
    ensures var s := After(n, sched);
            s.th[t].pc.WaitSeq? ==>
              && (FollowerStep(n, s, t).th[t].pc.Copy? <==> s.ready == s.th[t].calls)
              && s.th[t].calls - 1 <= s.ready <= s.th[t].calls
  {
    EveryRun(n, sched);
    var s := After(n, sched);
    if s.th[t].pc.WaitSeq? { SeqExact(n, s, t); }
  }

  /** The leader's test of a flag succeeds exactly when that thread has finished this round. */
  lemma {:induction false} FlagExact(n: nat, sched: Schedule)
    requires n >= 2 && Legal(n, sched)
    ensures var s := After(n, sched);
            var pc := s.th[0].pc;
            pc.WaitFlag? && pc.i < n - 1 ==>
              (s.flags[pc.i] == s.doneFlag <==> Done(s.th[pc.i + 1]) == s.th[0].calls)
  {
    EveryRun(n, sched);
    var s := After(n, sched);
    var pc := s.th[0].pc;
    if pc.WaitFlag? && pc.i < n - 1 { FlagTells(n, s, pc.i + 1); }
  }

  /** Once every thread is in its call of the round, one of them can move. */
  lemma {:induction false} NoDeadlock(n: nat, sched: Schedule)
    requires n >= 2 && Legal(n, sched)
    requires var s := After(n, sched); forall t :: 0 <= t < n && s.th[t].pc.Out? ==> s.th[t].calls > Done(s.th[0])
    ensures CanMove(n, After(n, sched))
  {
    EveryRun(n, sched);
    hide Inv;
    var s := After(n, sched);
    var lead := s.th[0].pc;
    LeaderHere(n, s);
    if !lead.WaitFlag? || lead.i >= n - 1 {
      Moves(n, s, 0);
    } else {
      var t := lead.i + 1;
      FollowerHere(n, s, t);
      FlagExact(n, sched);
      if Done(s.th[t]) == s.th[0].calls {
        Moves(n, s, 0);
      } else {
        if s.th[t].pc.WaitSeq? { SeqExact(n, s, t); }
        Moves(n, s, t);
      }
    }
  }

  lemma Moves(n: nat, s: State, t: nat)
    requires Shape(n, s) && t < n && Step(n, s, t).th[t].pc != s.th[t].pc
    ensures CanMove(n, s)
  {
  }

  ghost predicate CanMove(n: nat, s: State)
    requires Shape(n, s)
  {
    exists t :: 0 <= t < n && Step(n, s, t) != s
  }

  lemma LeaderHere(n: nat, s: State)
    requires Inv(n, s)
    ensures LeaderOk(n, s.th[0], s.buf, s.ready, s.doneFlag)
  {
  }

  lemma FollowerHere(n: nat, s: State, t: nat)
    requires Inv(n, s) && 0 < t < n
    ensures FollowerOk(n, t, s.th[t], s.flags[t - 1], s.th[0])
  {
  }
}
