/**
  What every step of the reduce machine keeps: a thread is at most one round ahead,
  exactly one thread leads a round, counters count, and each computing thread's chunk
  holds exactly the sources it has folded, each of this round and each once.
 */
module ReduceRoundsSafety {
  import opened Options
  import opened Counting
  import opened ReduceRounds

  // ------------------------------------------------------------------ vocabulary

  /** A leader that has seen every chunk done. */
  predicate SawDone(pc: PC) { pc.LPublish? || pc.LWaitOthers? || SawOthers(pc) }

  /** A leader that has seen everybody else leave. */
  predicate SawOthers(pc: PC) { pc.LConsumed? || Ending(pc) }

  predicate Before(pc: PC) { pc.Out? || pc.WaitReady? || pc.CopyOwn? || pc.MarkOwn? }

  predicate Scanning(pc: PC) { pc.Scan? || pc.Fold? || pc.Mark? }

  /** Through with round `r`, while the leader has not yet reset the channel. */
  predicate Finished(r: nat, th: Thread) { th.ticket == r + 1 }

  /** Has called MarkChunkDone in round `r`. */
  predicate Past(r: nat, th: Thread) {
    Finished(r, th) || th.pc.Elect? || th.pc.TryCas? || Leading(th.pc) || Trailing(th.pc)
  }

  /** The thread elected for this round, or -1. */
  function Lead(cfg: Config, s: State): int {
    match cfg.leadership
    case Root(r) => r
    case Ticket => if s.ticket == s.round + 1 && |s.leaders| == s.ticket then s.leaders[s.round] else -1
  }

  function LeadPc(ths: seq<Thread>, lead: int): PC {
    if 0 <= lead < |ths| then ths[lead].pc else Out
  }

  /** Whether thread t (one of the computing ones) has marked channel j consumed. */
  predicate Marked(computing: nat, r: nat, t: nat, th: Thread, j: nat) {
    t < computing && (Finished(r, th) || j in th.done)
  }

  ghost function Marks(computing: nat, r: nat, ths: seq<Thread>, j: nat): set<nat> {
    set t | 0 <= t < |ths| && Marked(computing, r, t, ths[t], j)
  }

  ghost function PastSet(r: nat, ths: seq<Thread>): set<nat> {
    set t | 0 <= t < |ths| && Past(r, ths[t])
  }

  ghost function FinishedSet(r: nat, ths: seq<Thread>): set<nat> {
    set t | 0 <= t < |ths| && Finished(r, ths[t])
  }

  /** The sources thread t has put into its chunk this round. */
  ghost function Folded(threads: nat, r: nat, t: nat, th: Thread): set<nat> {
    if Finished(r, th) then Below(threads)
    else if th.pc.MarkOwn? then {t}
    else if th.pc.Mark? then th.done + {th.pc.j}
    else th.done
  }

  /** `a` lists the round-r source of each thread in `who`, each once. */
  ghost predicate Exactly(a: seq<Src>, who: set<nat>, r: nat) {
    && (forall i :: 0 <= i < |a| ==> a[i].round == r && a[i].thread in who)
    && (forall j :: j in who ==> Src(j, r) in a)
    && (forall i, k :: 0 <= i < k < |a| ==> a[i] != a[k])
  }

  /** Every computing thread's chunk is the fold of everybody's round-r source. */
  ghost predicate Complete(cfg: Config, acc: seq<seq<Src>>, r: nat) {
    |acc| == cfg.threads && forall t :: 0 <= t < |acc| && t < cfg.computing ==> Exactly(acc[t], Below(cfg.threads), r)
  }

  // ------------------------------------------------------------------ the invariant

  predicate PcOk(cfg: Config, r: nat, lead: int, t: nat, th: Thread) {
    && (th.ticket == r || (Finished(r, th) && (th.pc.Out? || th.pc.WaitReady?)))
    && th.sense == (th.ticket % 2 == 0)
    && (th.pc.CopyOwn? || th.pc.MarkOwn? || Scanning(th.pc) ==> t < cfg.computing)
    && (Before(th.pc) || t >= cfg.computing ==> th.done == {})
    && (Scanning(th.pc) ==> t in th.done)
    && (forall j :: j in th.done ==> j < cfg.threads)
    && (th.pc.Fold? || th.pc.Mark? ==> th.pc.j < cfg.threads && th.pc.j !in th.done)
    && (th.pc.Fold? ==> th.pc.b == r)
    && (!Before(th.pc) && !Scanning(th.pc) && t < cfg.computing ==> AllIn(cfg.threads, th.done))
    && (th.pc.TryCas? ==> cfg.leadership.Ticket?)
    && (Leading(th.pc) ==> lead == t)
    && (lead == t && cfg.leadership.Ticket? ==> Leading(th.pc))
    && (Trailing(th.pc) || Finished(r, th) ==> 0 <= lead && lead != t)
  }

  /** A thread's source stays on offer from the start of its call to its own clear. */
  predicate BufOk(th: Thread, b: Option<nat>) {
    b == if th.pc.Out? || th.pc.NConsumed? || th.pc.NInc? || th.pc.LInit? || Cleared(th.pc) then None else Some(th.ticket)
  }

  ghost predicate AccOk(cfg: Config, r: nat, cleared: bool, t: nat, th: Thread, a: seq<Src>) {
    if cleared || t >= cfg.computing then a == [] else Exactly(a, Folded(cfg.threads, r, t, th), r)
  }

  /** Channel j's consumption count has been reset this round. */
  predicate Reset(r: nat, th: Thread) {
    Finished(r, th) || th.pc.NInc? || Ending(th.pc)
  }

  /** A thread that has seen its source fully used. */
  predicate Drained(r: nat, th: Thread) {
    Finished(r, th) || th.pc.NClear? || th.pc.NConsumed? || th.pc.NInc?
  }

  ghost predicate ConsumedOk(cfg: Config, r: nat, ths: seq<Thread>, j: nat, n: nat)
    requires j < |ths|
  {
    && n == (if Reset(r, ths[j]) then 0 else |Marks(cfg.computing, r, ths, j)|)
    && (Drained(r, ths[j]) ==> |Marks(cfg.computing, r, ths, j)| >= cfg.computing)
  }

  ghost predicate ThreadsOk(cfg: Config, r: nat, lead: int, ths: seq<Thread>) {
    forall t :: 0 <= t < |ths| ==> PcOk(cfg, r, lead, t, ths[t])
  }

  ghost predicate BufsOk(ths: seq<Thread>, buf: seq<Option<nat>>) {
    |buf| == |ths| && forall t :: 0 <= t < |ths| ==> BufOk(ths[t], buf[t])
  }

  ghost predicate AccsOk(cfg: Config, r: nat, cleared: bool, ths: seq<Thread>, acc: seq<seq<Src>>) {
    |acc| == |ths| && forall t :: 0 <= t < |ths| ==> AccOk(cfg, r, cleared, t, ths[t], acc[t])
  }

  ghost predicate ConsumptionOk(cfg: Config, r: nat, ths: seq<Thread>, consumed: seq<nat>) {
    |consumed| == |ths| && forall j :: 0 <= j < |ths| ==> ConsumedOk(cfg, r, ths, j, consumed[j])
  }

  ghost predicate AllPast(r: nat, ths: seq<Thread>) { forall u :: 0 <= u < |ths| ==> Past(r, ths[u]) }

  ghost predicate OthersFinished(r: nat, lead: int, ths: seq<Thread>) {
    forall u :: 0 <= u < |ths| && u != lead ==> Finished(r, ths[u])
  }

  /** The two counters, and what a leader past its waits knows. */
  ghost predicate CountsOk(r: nat, lead: int, ths: seq<Thread>, numDone: nat, others: nat) {
    var pc := LeadPc(ths, lead);
    && numDone == (if pc.LOthers? || pc.LFlip? then 0 else |PastSet(r, ths)|)
    && others == (if pc.LFlip? then 0 else |FinishedSet(r, ths)|)
    && (SawDone(pc) ==> AllPast(r, ths))
    && (SawOthers(pc) ==> OthersFinished(r, lead, ths))
  }

  ghost predicate ClockOk(cfg: Config, s: State) {
    && s.ready == (s.round % 2 == 0)
    && (cfg.leadership.Ticket? ==>
          (s.ticket == s.round || s.ticket == s.round + 1) && |s.leaders| == s.ticket)
    && (forall i :: 0 <= i < |s.leaders| ==> s.leaders[i] < cfg.threads)
  }

  ghost predicate PublishedOk(cfg: Config, r: nat, pc: PC, published: seq<seq<seq<Src>>>) {
    && |published| == (if pc.LWaitOthers? || SawOthers(pc) then r + 1 else r)
    && forall k :: 0 <= k < |published| ==> Complete(cfg, published[k], k)
  }

  ghost predicate Inv(cfg: Config, s: State) {
    && Shape(cfg, s)
    && ClockOk(cfg, s)
    && var lead := Lead(cfg, s);
       var pc := LeadPc(s.th, lead);
    && ThreadsOk(cfg, s.round, lead, s.th)
    && BufsOk(s.th, s.buf)
    && AccsOk(cfg, s.round, Cleared(pc), s.th, s.acc)
    && ConsumptionOk(cfg, s.round, s.th, s.consumed)
    && CountsOk(s.round, lead, s.th, s.numDone, s.others)
    && PublishedOk(cfg, s.round, pc, s.published)
  }

  // ------------------------------------------------------------------ counting

  /** A subset of n threads with n elements is all of them. */
  lemma FullSet(a: set<nat>, n: nat)
    requires a <= Below(n) && |a| >= n
    ensures a == Below(n)
  {
    if x :| x in Below(n) && x !in a { SubsetSize(a + {x}, Below(n)); }
  }

  /** A computing thread that has not marked j keeps j's count below its target. */
  lemma ConsumedMeansMarked(cfg: Config, r: nat, ths: seq<Thread>, j: nat, u: nat)
    requires |ths| == cfg.threads && cfg.computing <= cfg.threads && u < cfg.computing
    requires |Marks(cfg.computing, r, ths, j)| >= cfg.computing
    ensures Marked(cfg.computing, r, u, ths[u], j)
  {
    FullSet(Marks(cfg.computing, r, ths, j), cfg.computing);
    assert u in Below(cfg.computing);
  }

  lemma DoneMeansPast(r: nat, ths: seq<Thread>)
    requires |PastSet(r, ths)| >= |ths|
    ensures AllPast(r, ths)
  {
    FullSet(PastSet(r, ths), |ths|);
    forall u | 0 <= u < |ths| ensures Past(r, ths[u]) { assert u in Below(|ths|); }
  }

  lemma OthersMeansFinished(r: nat, lead: nat, ths: seq<Thread>)
    requires lead < |ths| && !Finished(r, ths[lead])
    requires |FinishedSet(r, ths)| >= |ths| - 1
    ensures OthersFinished(r, lead, ths)
  {
    FullSet(FinishedSet(r, ths) + {lead}, |ths|);
    forall u | 0 <= u < |ths| && u != lead ensures Finished(r, ths[u]) { assert u in Below(|ths|); }
  }

  // ------------------------------------------------------------------ one thread changes

  lemma FrameThreads(cfg: Config, r: nat, lead: int, ths: seq<Thread>, t: nat, th: Thread)
    requires ThreadsOk(cfg, r, lead, ths) && t < |ths| && PcOk(cfg, r, lead, t, th)
    ensures ThreadsOk(cfg, r, lead, ths[t := th])
  {
  }

  lemma FrameAccs(cfg: Config, r: nat, cleared: bool, ths: seq<Thread>, acc: seq<seq<Src>>, t: nat, th: Thread, a: seq<Src>)
    requires AccsOk(cfg, r, cleared, ths, acc) && t < |ths| && AccOk(cfg, r, cleared, t, th, a)
    ensures AccsOk(cfg, r, cleared, ths[t := th], acc[t := a])
  {
    hide AccOk;
  }

  /** Thread t neither marks a channel nor resets its own. */
  lemma FrameConsumption(cfg: Config, r: nat, ths: seq<Thread>, consumed: seq<nat>, t: nat, th: Thread)
    requires ConsumptionOk(cfg, r, ths, consumed) && t < |ths|
    requires th.done == ths[t].done && Finished(r, th) == Finished(r, ths[t]) && Reset(r, th) == Reset(r, ths[t])
    requires Drained(r, th) ==> Drained(r, ths[t]) || |Marks(cfg.computing, r, ths, t)| >= cfg.computing
    ensures ConsumptionOk(cfg, r, ths[t := th], consumed)
  {
    var ths' := ths[t := th];
    forall j | 0 <= j < |ths'| ensures ConsumedOk(cfg, r, ths', j, consumed[j]) {
      assert Marks(cfg.computing, r, ths', j) == Marks(cfg.computing, r, ths, j);
      assert ConsumedOk(cfg, r, ths, j, consumed[j]);
    }
  }

  lemma NewMark(computing: nat, r: nat, ths: seq<Thread>, t: nat, th: Thread, i: nat)
    requires t < |ths| && t < computing && i !in ths[t].done && th.done == ths[t].done + {i}
    requires !Finished(r, th) && !Finished(r, ths[t])
    ensures |Marks(computing, r, ths[t := th], i)| == |Marks(computing, r, ths, i)| + 1
  {
    assert Marks(computing, r, ths[t := th], i) == Marks(computing, r, ths, i) + {t};
    assert t !in Marks(computing, r, ths, i);
  }

  lemma OldMarks(computing: nat, r: nat, ths: seq<Thread>, t: nat, th: Thread, i: nat, j: nat)
    requires t < |ths| && th.done == ths[t].done + {i} && j != i
    requires !Finished(r, th) && !Finished(r, ths[t])
    ensures Marks(computing, r, ths[t := th], j) == Marks(computing, r, ths, j)
  {
  }

  /** Thread t marks channel i. */
  lemma MarkConsumption(cfg: Config, r: nat, ths: seq<Thread>, consumed: seq<nat>, t: nat, th: Thread, i: nat)
    requires ConsumptionOk(cfg, r, ths, consumed) && t < |ths| && i < |ths| && t < cfg.computing
    requires i !in ths[t].done && th.done == ths[t].done + {i}
    requires Drained(r, th) == Drained(r, ths[t])
    requires !Finished(r, th) && !Finished(r, ths[t]) && !Reset(r, ths[i]) && !Reset(r, ths[t]) && !Reset(r, th)
    ensures ConsumptionOk(cfg, r, ths[t := th], consumed[i := consumed[i] + 1])
  {
    hide Marks;
    var ths' := ths[t := th];
    var consumed' := consumed[i := consumed[i] + 1];
    forall j | 0 <= j < |ths'| ensures ConsumedOk(cfg, r, ths', j, consumed'[j]) {
      assert ConsumedOk(cfg, r, ths, j, consumed[j]);
      if j == i { NewMark(cfg.computing, r, ths, t, th, i); } else { OldMarks(cfg.computing, r, ths, t, th, i, j); }
    }
  }

  /** Thread t resets its own count; it may at once leave the round. */
  lemma ResetConsumption(cfg: Config, r: nat, ths: seq<Thread>, consumed: seq<nat>, t: nat, th: Thread, zero: bool)
    requires ConsumptionOk(cfg, r, ths, consumed) && t < |ths| && Reset(r, th)
    requires zero || Reset(r, ths[t])
    requires Drained(r, th) ==> Drained(r, ths[t])
    requires forall j :: 0 <= j < |ths| ==> Marked(cfg.computing, r, t, th, j) == Marked(cfg.computing, r, t, ths[t], j)
    ensures ConsumptionOk(cfg, r, ths[t := th], if zero then consumed[t := 0] else consumed)
  {
    var ths' := ths[t := th];
    var consumed' := if zero then consumed[t := 0] else consumed;
    forall j | 0 <= j < |ths'| ensures ConsumedOk(cfg, r, ths', j, consumed'[j]) {
      assert ConsumedOk(cfg, r, ths, j, consumed[j]);
      assert Marks(cfg.computing, r, ths', j) == Marks(cfg.computing, r, ths, j);
    }
  }

  lemma SamePast(r: nat, ths: seq<Thread>, t: nat, th: Thread)
    requires t < |ths| && Past(r, th) == Past(r, ths[t])
    ensures PastSet(r, ths[t := th]) == PastSet(r, ths)
    ensures AllPast(r, ths[t := th]) == AllPast(r, ths)
  {
    var ths' := ths[t := th];
    assert forall u :: 0 <= u < |ths| ==> Past(r, ths'[u]) == Past(r, ths[u]);
    if AllPast(r, ths') { forall u | 0 <= u < |ths| ensures Past(r, ths[u]) { assert Past(r, ths'[u]); } }
  }

  lemma SameFinished(r: nat, ths: seq<Thread>, t: nat, th: Thread)
    requires t < |ths| && Finished(r, th) == Finished(r, ths[t])
    ensures FinishedSet(r, ths[t := th]) == FinishedSet(r, ths)
    ensures forall lead :: OthersFinished(r, lead, ths) ==> OthersFinished(r, lead, ths[t := th])
  {
  }

  /** Thread t changes neither its marks nor its standing; the leader's place may move on. */
  lemma CountsKeep(cfg: Config, r: nat, lead: int, ths: seq<Thread>, numDone: nat, others: nat, t: nat, th: Thread)
    requires CountsOk(r, lead, ths, numDone, others) && t < |ths|
    requires Past(r, th) == Past(r, ths[t]) && Finished(r, th) == Finished(r, ths[t])
    requires var pc, pc' := LeadPc(ths, lead), LeadPc(ths[t := th], lead);
             && (pc'.LOthers? || pc'.LFlip? <==> pc.LOthers? || pc.LFlip?)
             && (pc'.LFlip? <==> pc.LFlip?)
             && (SawDone(pc') ==> SawDone(pc) || AllPast(r, ths))
             && (SawOthers(pc') ==> SawOthers(pc) || OthersFinished(r, lead, ths))
    ensures CountsOk(r, lead, ths[t := th], numDone, others)
  {
    hide AllPast, OthersFinished, PastSet, FinishedSet, Past;
    SamePast(r, ths, t, th);
    SameFinished(r, ths, t, th);
  }

  // ------------------------------------------------------------------ steps keep it

  /** A step inside one thread's round that moves no counter. */
  lemma LocalKeeps(cfg: Config, s: State, t: nat, th: Thread, a: seq<Src>, b: Option<nat>, p: seq<seq<seq<Src>>>)
    requires Inv(cfg, s) && t < cfg.threads
    requires var me := s.th[t];
             && th.done == me.done && th.ticket == me.ticket && th.sense == me.sense
             && Past(s.round, th) == Past(s.round, me) && Reset(s.round, th) == Reset(s.round, me)
    requires Drained(s.round, th) ==>
               Drained(s.round, s.th[t]) || |Marks(cfg.computing, s.round, s.th, t)| >= cfg.computing
    requires var lead := Lead(cfg, s);
             && PcOk(cfg, s.round, lead, t, th)
             && BufOk(th, b)
             && AccOk(cfg, s.round, Cleared(LeadPc(s.th, lead)), t, th, a)
             && var pc, pc' := LeadPc(s.th, lead), LeadPc(s.th[t := th], lead);
             && Cleared(pc') == Cleared(pc)
             && (pc'.LOthers? || pc'.LFlip? <==> pc.LOthers? || pc.LFlip?)
             && (pc'.LFlip? <==> pc.LFlip?)
             && (SawDone(pc') ==> SawDone(pc) || AllPast(s.round, s.th))
             && (SawOthers(pc') ==> SawOthers(pc) || OthersFinished(s.round, lead, s.th))
             && PublishedOk(cfg, s.round, pc', p)
    ensures Inv(cfg, s.(th := s.th[t := th], acc := s.acc[t := a], buf := s.buf[t := b], published := p))
  {
    hide PcOk, BufOk, AccOk, ConsumptionOk, CountsOk, PublishedOk, AllPast, OthersFinished, Past, Reset, Drained, SawDone, SawOthers;
    var lead := Lead(cfg, s);
    FrameThreads(cfg, s.round, lead, s.th, t, th);
    FrameAccs(cfg, s.round, Cleared(LeadPc(s.th, lead)), s.th, s.acc, t, th, a);
    FrameConsumption(cfg, s.round, s.th, s.consumed, t, th);
    CountsKeep(cfg, s.round, lead, s.th, s.numDone, s.others, t, th);
  }
}
