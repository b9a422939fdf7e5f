/**
  What every step of the work-stealing machine keeps: chunks are partitioned among
  unclaimed, held, run and reported; the done counter counts the reported ones; and
  a thread with work in hand pins the owner inside the execution it belongs to.
 */
module WorkStealingSafety {
  import opened Counting
  import opened WorkStealing

  // ------------------------------------------------------------------ vocabulary

  ghost function InPlace(w: seq<Place>, p: Place): set<nat> {
    set c: nat | c < |w| && w[c] == p
  }

  ghost function Interval(lo: nat, hi: int): (r: set<nat>)
    requires lo <= hi + 1
    ensures forall c: nat {:trigger c in r} :: c in r <==> lo <= c <= hi
    ensures |r| == hi - lo + 1
    decreases hi + 1 - lo
  {
    if lo > hi then {} else {lo} + Interval(lo + 1, hi)
  }

  /** The owner is outside an execution: before the counter is reset or after its wait. */
  predicate Closed(pc: PC) {
    Between(pc) || pc.Recheck? || pc.ClearOwn? || pc.Collect?
  }

  /** Between executions: the result of the last one has been taken. */
  predicate Between(pc: PC) {
    pc.Idle? || pc.StoreRet? || pc.StoreDone? || pc.StoreCounter?
  }

  predicate InLoop(pc: PC) {
    pc.Snap? || pc.Claim? || HasWork(pc)
  }

  predicate Merging(pc: PC) { pc.MergeLoad? || pc.MergeCas? }

  /** Holding a claimed chunk, or the result of a run one. */
  predicate HasWork(pc: PC) {
    pc.Clear? || pc.Run? || Merging(pc) || pc.Report?
  }

  predicate Holds(pc: PC, c: nat) {
    (pc.Clear? || pc.Run?) && pc.lo <= c <= pc.hi
  }

  /** The first chunk nobody has claimed; it may lie past the end. */
  function Next(cfg: Config, s: State): int {
    s.counter - cfg.Start()
  }

  function Clip(n: int, chunks: nat): int { if n < chunks then n else chunks }

  // ------------------------------------------------------------------ the invariant

  /** What a program counter means for thread t. */
  predicate PcOk(cfg: Config, t: nat, th: Thread) {
    && (t > 0 ==> th.pc.Idle? || InLoop(th.pc))
    && (th.pc.Snap? ==> cfg.policy.Guided?)
    && (th.pc.Claim? ==> 1 <= th.pc.grab && (cfg.policy.SingleChunk? ==> th.pc.grab == 1))
    && (th.pc.Clear? || th.pc.Run? ==> th.pc.lo <= th.pc.hi < cfg.chunks)
    && (Merging(th.pc) ==> cfg.returning)
    && (Merging(th.pc) || th.pc.Report? ==> th.count > 0)
    && (th.count > 0 ==> InLoop(th.pc))
  }

  /** Thread t holds exactly the chunks its program counter says, and has counted those it ran. */
  ghost predicate HandsOk(w: seq<Place>, t: nat, th: Thread) {
    && (forall c :: 0 <= c < |w| ==> (w[c] == Held(t) <==> Holds(th.pc, c)))
    && |InPlace(w, Ran(t))| == th.count
  }

  ghost predicate ThreadsOk(cfg: Config, w: seq<Place>, ths: seq<Thread>) {
    forall t :: 0 <= t < |ths| ==> PcOk(cfg, t, ths[t]) && HandsOk(w, t, ths[t])
  }

  ghost predicate PlacesOk(threads: nat, w: seq<Place>, next: int) {
    && 0 <= next
    && (forall c :: 0 <= c < |w| ==> (w[c] == Free <==> next <= c))
    && (forall c :: 0 <= c < |w| && (w[c].Held? || w[c].Ran?) ==> w[c].t < threads)
  }

  ghost predicate AllReported(w: seq<Place>) {
    forall c :: 0 <= c < |w| ==> w[c] == Reported
  }

  /** What the owner's program counter says about the shared counters. */
  ghost predicate OwnerOk(cfg: Config, s: State)
    requires |s.th| > 0
  {
    var pc := s.th[0].pc;
    && (!Between(pc) ==> s.done == |InPlace(s.where, Reported)|)
    && (Closed(pc) ==> AllReported(s.where))
    && (pc.Waiting? || Merging(pc) || pc.Report? ==> Next(cfg, s) >= cfg.chunks)
    && (InLoop(pc) ==> s.th[0].until)
    && (pc.StoreCounter? ==> s.done == 0)
    && (!Between(pc) ==> |s.given| > 0)
    && (!Closed(pc) ==> s.args == s.given[|s.given| - 1])
    && (s.victim ==> !Between(pc) && !pc.SetVictim? && !pc.Collect?)
    && |s.results| == (if Between(pc) then |s.given| else |s.given| - 1)
  }

  predicate HasRun(p: Place) { p.Ran? || p.Reported? }

  /** Every chunk ran exactly once, with arguments a. */
  ghost predicate OnceEach(r: seq<seq<Args>>, a: Args) {
    forall c :: 0 <= c < |r| ==> r[c] == [a]
  }

  /** Exactly the chunks that are past running ran, once, with arguments a. */
  ghost predicate OnceSoFar(r: seq<seq<Args>>, w: seq<Place>, a: Args) {
    |r| == |w| && forall c :: 0 <= c < |r| ==> r[c] == if HasRun(w[c]) then [a] else []
  }

  /** How often, and with which arguments, each chunk has run. */
  ghost predicate RanOk(ran: seq<seq<seq<Args>>>, given: seq<Args>, w: seq<Place>) {
    && |ran| == |given|
    && (forall e :: 0 <= e < |ran| ==> |ran[e]| == |w|)
    && (forall e :: 0 <= e < |ran| - 1 ==> OnceEach(ran[e], given[e]))
    && (|ran| > 0 ==> OnceSoFar(ran[|ran| - 1], w, given[|ran| - 1]))
  }

  /** The ranges, in claim order, cover 0..n with no gap or overlap. */
  ghost predicate Tiles(claims: seq<Range>, n: int) {
    && (forall i :: 0 <= i < |claims| ==> claims[i].lo <= claims[i].hi < n)
    && (claims != [] ==> claims[0].lo == 0)
    && (forall i {:trigger claims[i].lo} :: 0 < i < |claims| ==> claims[i].lo == claims[i - 1].hi + 1)
    && n == (if claims == [] then 0 else claims[|claims| - 1].hi + 1)
  }

  ghost predicate Shape(cfg: Config, s: State) {
    cfg.Sized() && |s.th| == cfg.threads && |s.where| == cfg.chunks
  }

  ghost predicate Control(cfg: Config, s: State) {
    && Shape(cfg, s)
    && ThreadsOk(cfg, s.where, s.th)
    && PlacesOk(cfg.threads, s.where, Next(cfg, s))
    && OwnerOk(cfg, s)
    && RanOk(s.ran, s.given, s.where)
    && (|s.given| > 0 ==> Tiles(s.claims, Clip(Next(cfg, s), cfg.chunks)))
  }

  // ------------------------------------------------------------------ counting

  lemma NoneInPlace(w: seq<Place>, p: Place)
    ensures |InPlace(w, p)| == 0 <==> forall c :: 0 <= c < |w| ==> w[c] != p
  {
    if c :| 0 <= c < |w| && w[c] == p { assert c in InPlace(w, p); }
  }

  /** All chunks counted means all chunks reported. */
  lemma FullCount(w: seq<Place>)
    requires |InPlace(w, Reported)| >= |w|
    ensures AllReported(w) && |InPlace(w, Reported)| == |w|
  {
    var r, all := InPlace(w, Reported), Interval(0, |w| - 1);
    if c :| c in all && c !in r { SubsetSize(r + {c}, all); }
    SubsetSize(r, all);
    forall c | 0 <= c < |w| ensures w[c] == Reported { assert c in all; }
  }

  lemma AllCounted(w: seq<Place>)
    requires AllReported(w)
    ensures |InPlace(w, Reported)| == |w|
  {
    assert InPlace(w, Reported) == Interval(0, |w| - 1);
  }

  /** A thread with work in hand pins the owner inside the execution. */
  lemma WorkPinsOwner(cfg: Config, s: State, t: nat)
    requires Control(cfg, s) && t < cfg.threads && (HasWork(s.th[t].pc) || s.th[t].count > 0)
    ensures !Closed(s.th[0].pc)
  {
    if Closed(s.th[0].pc) { IdleHands(cfg, s.where, t, s.th[t]); }
  }

  /** Everything reported means nobody has work in hand. */
  lemma IdleHands(cfg: Config, w: seq<Place>, t: nat, th: Thread)
    requires PcOk(cfg, t, th) && HandsOk(w, t, th) && AllReported(w) && |w| == cfg.chunks
    ensures !HasWork(th.pc) && th.count == 0
  {
    NoneInPlace(w, Ran(t));
    if th.pc.Clear? || th.pc.Run? { FirstIsHeld(cfg, w, t, th); }
  }

  lemma FirstIsHeld(cfg: Config, w: seq<Place>, t: nat, th: Thread)
    requires PcOk(cfg, t, th) && HandsOk(w, t, th) && |w| == cfg.chunks && (th.pc.Clear? || th.pc.Run?)
    ensures w[th.pc.lo] == Held(t)
  {
  }

  // ------------------------------------------------------------------ one thread, one change of places

  lemma FrameHands(w: seq<Place>, w': seq<Place>, u: nat, th: Thread)
    requires HandsOk(w, u, th) && |w'| == |w|
    requires forall c :: 0 <= c < |w| && w'[c] != w[c] ==> w[c] != Held(u) && w'[c] != Held(u)
    requires forall c :: 0 <= c < |w| && w'[c] != w[c] ==> w[c] != Ran(u) && w'[c] != Ran(u)
    ensures HandsOk(w', u, th)
  {
    assert InPlace(w', Ran(u)) == InPlace(w, Ran(u));
  }

  lemma FrameThreads(cfg: Config, w: seq<Place>, ths: seq<Thread>, w': seq<Place>, t: nat, th: Thread)
    requires ThreadsOk(cfg, w, ths) && |w'| == |w| && t < |ths|
    requires PcOk(cfg, t, th) && HandsOk(w', t, th)
    requires forall c, u :: 0 <= c < |w| && u != t && w'[c] != w[c] ==> w[c] != Held(u) && w'[c] != Held(u)
    requires forall c, u :: 0 <= c < |w| && u != t && w'[c] != w[c] ==> w[c] != Ran(u) && w'[c] != Ran(u)
    ensures ThreadsOk(cfg, w', ths[t := th])
  {
    var ths' := ths[t := th];
    forall u | 0 <= u < |ths'| ensures PcOk(cfg, u, ths'[u]) && HandsOk(w', u, ths'[u]) {
      if u != t { FrameHands(w, w', u, ths[u]); }
    }
  }

  lemma ClaimHands(w: seq<Place>, t: nat, th: Thread, lo: nat, hi: nat, pc: PC)
    requires HandsOk(w, t, th) && th.pc.Claim? && lo <= hi < |w|
    requires forall c :: lo <= c < |w| ==> w[c] == Free
    requires pc == Run(lo, hi) || pc == Clear(lo, hi)
    ensures HandsOk(Mark(w, lo, hi, Held(t)), t, th.(pc := pc))
  {
    assert InPlace(Mark(w, lo, hi, Held(t)), Ran(t)) == InPlace(w, Ran(t));
  }

  lemma RunHands(w: seq<Place>, t: nat, th: Thread, lo: nat, hi: nat, th': Thread)
    requires HandsOk(w, t, th) && th.pc == Run(lo, hi) && lo <= hi < |w|
    requires !th'.pc.Run? && !th'.pc.Clear? && th'.count == th.count + (hi - lo + 1)
    ensures HandsOk(Mark(w, lo, hi, Ran(t)), t, th')
  {
    assert InPlace(Mark(w, lo, hi, Ran(t)), Ran(t)) == InPlace(w, Ran(t)) + Interval(lo, hi);
    assert InPlace(w, Ran(t)) !! Interval(lo, hi);
  }

  // ------------------------------------------------------------------ steps keep it

  lemma InitControl(cfg: Config, a: Args, v: Value)
    requires cfg.Sized()
    ensures Control(cfg, Init(cfg, a, v))
  {
    var s := Init(cfg, a, v);
    forall t | 0 <= t < |s.th| ensures PcOk(cfg, t, s.th[t]) && HandsOk(s.where, t, s.th[t]) {
      NoneInPlace(s.where, Ran(t));
    }
  }

  /** A step that moves no chunk. */
  lemma MoveKeeps(cfg: Config, s: State, t: nat, s': State)
    requires Control(cfg, s) && t < cfg.threads && |s'.th| == cfg.threads
    requires s'.th == s.th[t := s'.th[t]]
    requires s'.where == s.where && s'.ran == s.ran && s'.given == s.given && s'.claims == s.claims
    requires PcOk(cfg, t, s'.th[t]) && s'.th[t].count == s.th[t].count
    requires forall c :: 0 <= c < cfg.chunks ==> Holds(s'.th[t].pc, c) == Holds(s.th[t].pc, c)
    requires Next(cfg, s') == Next(cfg, s) || (Next(cfg, s) >= cfg.chunks && Next(cfg, s') >= cfg.chunks)
    requires OwnerOk(cfg, s')
    ensures Control(cfg, s')
  {
    FrameThreads(cfg, s.where, s.th, s'.where, t, s'.th[t]);
  }

  /** Steps of the owner before it opens an execution or after it has closed one. */
  lemma OwnerKeeps(cfg: Config, s: State, ch: Choice)
    requires Control(cfg, s)
    requires var pc := s.th[0].pc;
             pc.Idle? || pc.StoreRet? || pc.StoreDone? || pc.SetVictim? || pc.Waiting? || pc.Recheck? || pc.ClearOwn? || pc.Collect?
    ensures Control(cfg, Step(cfg, s, 0, ch))
  {
    hide HandsOk, RanOk, Tiles, PlacesOk, InPlace, AllReported;
    var s' := Step(cfg, s, 0, ch);
    if s.th[0].pc.Waiting? && s.done >= cfg.chunks { FullCount(s.where); }
    assert OwnerOk(cfg, s');
    assert PcOk(cfg, 0, s.th[0]);
    MoveKeeps(cfg, s, 0, s');
  }

  /** The entry check, for a thief or for the owner. */
  lemma EnterKeeps(cfg: Config, s: State, t: nat, until: bool)
    requires Control(cfg, s) && t < cfg.threads
    requires if t == 0 then s.th[0].pc.Enter? && until else s.th[t].pc.Idle?
    ensures Control(cfg, EnterLoop(cfg, s, t, until))
  {
    hide HandsOk, RanOk, Tiles, PlacesOk, InPlace, AllReported;
    assert PcOk(cfg, t, s.th[t]);
    var s' := EnterLoop(cfg, s, t, until);
    assert OwnerOk(cfg, s');
    MoveKeeps(cfg, s, t, s');
  }

  lemma FinishKeeps(cfg: Config, s: State, t: nat, more: nat)
    requires Control(cfg, s) && t < cfg.threads && (s.th[t].pc.Snap? || s.th[t].pc.Claim?)
    requires Next(cfg, s) >= cfg.chunks
    ensures Control(cfg, Finish(cfg, s.(counter := s.counter + more), t))
  {
    hide HandsOk, RanOk, Tiles, PlacesOk, InPlace, AllReported;
    assert PcOk(cfg, t, s.th[t]);
    var s' := Finish(cfg, s.(counter := s.counter + more), t);
    assert OwnerOk(cfg, s');
    MoveKeeps(cfg, s, t, s');
  }

  lemma SnapKeeps(cfg: Config, s: State, t: nat)
    requires Control(cfg, s) && t < cfg.threads && s.th[t].pc.Snap?
    ensures Control(cfg, SnapStep(cfg, s, t))
  {
    hide HandsOk, RanOk, Tiles, PlacesOk, InPlace, AllReported;
    assert PcOk(cfg, t, s.th[t]);
    if s.counter >= cfg.chunks {
      FinishKeeps(cfg, s, t, 0);
      assert s.(counter := s.counter + 0) == s;
    } else {
      MoveKeeps(cfg, s, t, SnapStep(cfg, s, t));
    }
  }

  lemma ClearKeeps(cfg: Config, s: State, t: nat, ch: Choice)
    requires Control(cfg, s) && t < cfg.threads && s.th[t].pc.Clear?
    ensures Control(cfg, Step(cfg, s, t, ch))
  {
    hide HandsOk, RanOk, Tiles, PlacesOk, InPlace, AllReported;
    WorkPinsOwner(cfg, s, t);
    assert PcOk(cfg, t, s.th[t]);
    MoveKeeps(cfg, s, t, Step(cfg, s, t, ch));
  }

  lemma MergeKeeps(cfg: Config, s: State, t: nat, ret: Value, pc: PC)
    requires Control(cfg, s) && t < cfg.threads && Merging(s.th[t].pc) && (Merging(pc) || pc.Report?)
    ensures Control(cfg, At(s.(ret := ret), t, pc))
  {
    hide HandsOk, RanOk, Tiles, PlacesOk, InPlace, AllReported;
    WorkPinsOwner(cfg, s, t);
    assert PcOk(cfg, t, s.th[t]);
    MoveKeeps(cfg, s, t, At(s.(ret := ret), t, pc));
  }

  lemma OpenKeeps(cfg: Config, s: State)
    requires Control(cfg, s) && s.th[0].pc.StoreCounter?
    ensures Control(cfg, OpenStep(cfg, s))
  {
    var s' := OpenStep(cfg, s);
    forall u | 0 <= u < |s'.th| ensures PcOk(cfg, u, s'.th[u]) && HandsOk(s'.where, u, s'.th[u]) {
      assert PcOk(cfg, u, s.th[u]) && HandsOk(s.where, u, s.th[u]);
      IdleHands(cfg, s.where, u, s.th[u]);
      NoneInPlace(s'.where, Ran(u));
    }
    NoneInPlace(s'.where, Reported);
  }

  lemma ClaimThreads(cfg: Config, s: State, t: nat, lo: nat, hi: nat)
    requires Control(cfg, s) && t < cfg.threads && s.th[t].pc.Claim? && Next(cfg, s) == lo < cfg.chunks
    requires hi == Clip(lo + s.th[t].pc.grab, cfg.chunks) - 1
    ensures var s' := ClaimStep(cfg, s, t, s.th[t].pc.grab);
            && s'.where == Mark(s.where, lo, hi, Held(t))
            && ThreadsOk(cfg, s'.where, s'.th)
            && InPlace(s'.where, Reported) == InPlace(s.where, Reported)
  {
    hide RanOk, Tiles, OwnerOk, AllReported, HandsOk;
    var s' := ClaimStep(cfg, s, t, s.th[t].pc.grab);
    assert PcOk(cfg, t, s.th[t]);
    ClaimFrame(cfg, s.where, s.th, t, lo, hi, s'.th[t].pc);
    assert s'.th == s.th[t := s.th[t].(pc := s'.th[t].pc)];
  }

  /** Taking free chunks touches nobody else's. */
  lemma ClaimFrame(cfg: Config, w: seq<Place>, ths: seq<Thread>, t: nat, lo: nat, hi: nat, pc: PC)
    requires ThreadsOk(cfg, w, ths) && t < |ths| && ths[t].pc.Claim? && lo <= hi < |w| == cfg.chunks
    requires forall c :: lo <= c < |w| ==> w[c] == Free
    requires pc == Run(lo, hi) || pc == Clear(lo, hi)
    ensures var w' := Mark(w, lo, hi, Held(t));
            ThreadsOk(cfg, w', ths[t := ths[t].(pc := pc)]) && InPlace(w', Reported) == InPlace(w, Reported)
  {
    assert PcOk(cfg, t, ths[t]) && HandsOk(w, t, ths[t]);
    ClaimHands(w, t, ths[t], lo, hi, pc);
    var w' := Mark(w, lo, hi, Held(t));
    assert InPlace(w', Reported) == InPlace(w, Reported);
    hide HandsOk, InPlace;
    FrameThreads(cfg, w, ths, w', t, ths[t].(pc := pc));
  }

  /** A fetch-and-add that wins chunks. */
  lemma ClaimSomeKeeps(cfg: Config, s: State, t: nat)
    requires Control(cfg, s) && t < cfg.threads && s.th[t].pc.Claim? && Next(cfg, s) < cfg.chunks
    ensures Control(cfg, ClaimStep(cfg, s, t, s.th[t].pc.grab))
  {
    hide HandsOk, RanOk, Tiles, InPlace, AllReported;
    var s' := ClaimStep(cfg, s, t, s.th[t].pc.grab);
    assert PcOk(cfg, t, s.th[t]);
    var lo := Next(cfg, s);
    var hi := Clip(lo + s.th[t].pc.grab, cfg.chunks) - 1;
    ClaimThreads(cfg, s, t, lo, hi);
    assert s.where[lo] == Free;
    ClaimRest(cfg, s, t, s', lo, hi);
  }

  lemma ClaimRest(cfg: Config, s: State, t: nat, s': State, lo: nat, hi: nat)
    requires Control(cfg, s) && t < cfg.threads && lo <= hi < cfg.chunks && Next(cfg, s) == lo
    requires s'.where == Mark(s.where, lo, hi, Held(t)) && InPlace(s'.where, Reported) == InPlace(s.where, Reported)
    requires Next(cfg, s') > hi && (hi < cfg.chunks - 1 ==> Next(cfg, s') == hi + 1)
    requires s'.claims == s.claims + [Range(lo, hi)]
    requires s'.ran == s.ran && s'.given == s.given && s'.done == s.done && s'.args == s.args
    requires s'.victim == s.victim && s'.results == s.results
    requires |s'.th| == |s.th| && (t != 0 ==> s'.th[0] == s.th[0]) && (t == 0 ==> s'.th[0].until && (s'.th[0].pc.Clear? || s'.th[0].pc.Run?) && s.th[0].pc.Claim?)
    requires s.where[lo] == Free
    requires ThreadsOk(cfg, s'.where, s'.th)
    ensures Control(cfg, s')
  {
    hide ThreadsOk;
    ClaimOwner(cfg, s, s', t, lo, hi);
    ClaimPlaces(cfg, s, t, lo, hi, Next(cfg, s'));
    ClaimRan(s, t, lo, hi);
    hide OwnerOk, PlacesOk, RanOk, InPlace;
  }

  lemma ClaimOwner(cfg: Config, s: State, s': State, t: nat, lo: nat, hi: nat)
    requires Control(cfg, s) && t < cfg.threads && lo <= hi < cfg.chunks && Next(cfg, s) == lo
    requires s'.where == Mark(s.where, lo, hi, Held(t)) && InPlace(s'.where, Reported) == InPlace(s.where, Reported)
    requires Next(cfg, s') > hi
    requires s'.given == s.given && s'.done == s.done && s'.args == s.args && s'.victim == s.victim && s'.results == s.results
    requires |s'.th| == |s.th| && (t != 0 ==> s'.th[0] == s.th[0])
    requires t == 0 ==> s'.th[0].until && (s'.th[0].pc.Clear? || s'.th[0].pc.Run?) && s.th[0].pc.Claim?
    requires s.where[lo] == Free
    ensures OwnerOk(cfg, s')
  {
    hide ThreadsOk, RanOk, Tiles, PlacesOk;
  }

  lemma ClaimPlaces(cfg: Config, s: State, t: nat, lo: nat, hi: nat, next: int)
    requires PlacesOk(cfg.threads, s.where, Next(cfg, s)) && t < cfg.threads && lo <= hi < |s.where| == cfg.chunks
    requires Next(cfg, s) == lo && next > hi && (hi < cfg.chunks - 1 ==> next == hi + 1)
    ensures PlacesOk(cfg.threads, Mark(s.where, lo, hi, Held(t)), next)
  {
  }

  lemma ClaimRan(s: State, t: nat, lo: nat, hi: nat)
    requires RanOk(s.ran, s.given, s.where) && lo <= hi < |s.where|
    requires forall c :: lo <= c < |s.where| ==> s.where[c] == Free
    ensures RanOk(s.ran, s.given, Mark(s.where, lo, hi, Held(t)))
  {
  }

  /** Running a held range adds one reading of this execution's arguments to each of its chunks. */
  lemma RunRecords(s: State, t: nat, lo: nat, hi: nat, w: seq<Place>)
    requires RanOk(s.ran, s.given, s.where) && |s.given| > 0 && s.args == s.given[|s.given| - 1]
    requires forall c :: 0 <= c < |s.where| && lo <= c <= hi ==> s.where[c] == Held(t)
    requires w == Mark(s.where, lo, hi, Ran(t))
    ensures RanOk(Record(s.ran, lo, hi, s.args), s.given, w)
  {
  }

  lemma RunThreads(cfg: Config, s: State, t: nat, lo: nat, hi: nat)
    requires Control(cfg, s) && t < cfg.threads && s.th[t].pc == Run(lo, hi) && lo <= hi
    ensures var s' := RunStep(cfg, s, t, lo, hi);
            ThreadsOk(cfg, s'.where, s'.th) && s'.where == Mark(s.where, lo, hi, Ran(t))
  {
    hide RanOk, Tiles, OwnerOk, AllReported;
    var s' := RunStep(cfg, s, t, lo, hi);
    assert PcOk(cfg, t, s.th[t]) && HandsOk(s.where, t, s.th[t]);
    var me := s'.th[t];
    RunHands(s.where, t, s.th[t], lo, hi, me);
    assert s'.th == s.th[t := me];
    FrameThreads(cfg, s.where, s.th, s'.where, t, me);
  }

  lemma RunOwner(cfg: Config, s: State, t: nat, lo: nat, hi: nat)
    requires Control(cfg, s) && t < cfg.threads && s.th[t].pc == Run(lo, hi) && lo <= hi
    ensures var s' := RunStep(cfg, s, t, lo, hi);
            OwnerOk(cfg, s') && PlacesOk(cfg.threads, s'.where, Next(cfg, s'))
  {
    hide Tiles, AllReported, RanOk;
    var s' := RunStep(cfg, s, t, lo, hi);
    WorkPinsOwner(cfg, s, t);
    assert PcOk(cfg, t, s.th[t]) && HandsOk(s.where, t, s.th[t]);
    assert s.where[hi] == Held(t);
    assert InPlace(s'.where, Reported) == InPlace(s.where, Reported);
  }

  lemma RunKeeps(cfg: Config, s: State, t: nat, lo: nat, hi: nat)
    requires Control(cfg, s) && t < cfg.threads && s.th[t].pc == Run(lo, hi) && lo <= hi
    ensures Control(cfg, RunStep(cfg, s, t, lo, hi))
  {
    hide Tiles, PlacesOk, RanOk;
    WorkPinsOwner(cfg, s, t);
    RunThreads(cfg, s, t, lo, hi);
    RunOwner(cfg, s, t, lo, hi);
    assert PcOk(cfg, t, s.th[t]) && HandsOk(s.where, t, s.th[t]);
    RunRecords(s, t, lo, hi, RunStep(cfg, s, t, lo, hi).where);
  }

  lemma ReportThreads(cfg: Config, s: State, t: nat)
    requires Control(cfg, s) && t < cfg.threads && s.th[t].pc.Report?
    ensures var s' := ReportStep(s, t);
            ThreadsOk(cfg, s'.where, s'.th) && |InPlace(s'.where, Reported)| == |InPlace(s.where, Reported)| + s.th[t].count
  {
    hide RanOk, Tiles, OwnerOk, AllReported;
    var s' := ReportStep(s, t);
    assert PcOk(cfg, t, s.th[t]) && HandsOk(s.where, t, s.th[t]);
    var mine := InPlace(s.where, Ran(t));
    NoneInPlace(s'.where, Ran(t));
    assert s'.th == s.th[t := s'.th[t]];
    FrameThreads(cfg, s.where, s.th, s'.where, t, s'.th[t]);
    assert InPlace(s'.where, Reported) == InPlace(s.where, Reported) + mine;
    assert InPlace(s.where, Reported) !! mine;
  }

  lemma ReportKeeps(cfg: Config, s: State, t: nat)
    requires Control(cfg, s) && t < cfg.threads && s.th[t].pc.Report?
    ensures Control(cfg, ReportStep(s, t))
  {
    hide HandsOk, Tiles, InPlace;
    var s' := ReportStep(s, t);
    WorkPinsOwner(cfg, s, t);
    ReportThreads(cfg, s, t);
    assert PcOk(cfg, t, s.th[t]);
    assert OwnerOk(cfg, s');
    assert PlacesOk(cfg.threads, s'.where, Next(cfg, s'));
    assert RanOk(s'.ran, s'.given, s'.where);
  }

  lemma StepControl(cfg: Config, s: State, t: nat, ch: Choice)
    requires Control(cfg, s) && t < cfg.threads
    ensures Control(cfg, Step(cfg, s, t, ch))
  {
    hide HandsOk, RanOk, Tiles, PlacesOk, OwnerOk, InPlace, AllReported;
    assert PcOk(cfg, t, s.th[t]);
    match s.th[t].pc
    case Idle => if t == 0 { OwnerKeeps(cfg, s, ch); } else { EnterKeeps(cfg, s, t, ch.until); }
    case Enter => EnterKeeps(cfg, s, t, true);
    case StoreCounter => OpenKeeps(cfg, s);
    case Snap => SnapKeeps(cfg, s, t);
    case Claim(g) => if Next(cfg, s) < cfg.chunks { ClaimSomeKeeps(cfg, s, t); } else { FinishKeeps(cfg, s, t, g); }
    case Clear(_, _) => ClearKeeps(cfg, s, t, ch);
    case Run(lo, hi) => RunKeeps(cfg, s, t, lo, hi);
    case MergeLoad => MergeKeeps(cfg, s, t, s.ret, MergeCas(s.ret)); assert s.(ret := s.ret) == s;
    case MergeCas(seen) => MergeKeeps(cfg, s, t, Step(cfg, s, t, ch).ret, Step(cfg, s, t, ch).th[t].pc);
    case Report => ReportKeeps(cfg, s, t);
    case _ => OwnerKeeps(cfg, s, ch);
  }
}
