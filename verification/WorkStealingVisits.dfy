/**
  What one visit to the claim loop achieves: a thread that comes while chunks are
  unclaimed gets the first of them, a thief that may stay works off all of them,
  a thief that may not leaves after one claim, and the owner can finish an
  execution by itself.
 */
module WorkStealingVisits {
  import opened Counting
  import opened WorkStealing
  import opened WorkStealingSafety
  import opened WorkStealingRuns

  /** n actions of thread t, and of nobody else. */
  function Alone(t: nat, ch: Choice, n: nat): (sched: Schedule)
    ensures |sched| == n && forall i :: 0 <= i < n ==> sched[i] == (t, ch)
  {
    seq(n, _ => (t, ch))
  }

  /** The state after n actions of thread t. */
  ghost function Acting(cfg: Config, s: State, t: nat, ch: Choice, n: nat): (s': State)
    requires cfg.Sized() && t < |s.th|
    ensures |s'.th| == |s.th|
  {
    if n == 0 then s else Step(cfg, Acting(cfg, s, t, ch, n - 1), t, ch)
  }

  lemma {:induction false} ActingIsAfter(cfg: Config, a: Args, v: Value, sched: Schedule, t: nat, ch: Choice, n: nat)
    requires cfg.Sized() && Legal(cfg, sched) && t < cfg.threads
    ensures Legal(cfg, sched + Alone(t, ch, n))
    ensures After(cfg, a, v, sched + Alone(t, ch, n)) == Acting(cfg, After(cfg, a, v, sched), t, ch, n)
  {
    hide Step;
    var all := sched + Alone(t, ch, n);
    if n == 0 {
      assert all == sched;
    } else {
      ActingIsAfter(cfg, a, v, sched, t, ch, n - 1);
      assert all[..|all| - 1] == sched + Alone(t, ch, n - 1);
    }
  }

  lemma {:induction false} ActingAdds(cfg: Config, s: State, t: nat, ch: Choice, m: nat, n: nat)
    requires cfg.Sized() && t < |s.th|
    ensures Acting(cfg, Acting(cfg, s, t, ch, m), t, ch, n) == Acting(cfg, s, t, ch, m + n)
  {
    hide Step;
    if n > 0 { ActingAdds(cfg, s, t, ch, m, n - 1); }
  }

  // ------------------------------------------------------------------ the first claim

  /** The first unclaimed chunk. */
  ghost predicate FirstFree(w: seq<Place>, c: nat) {
    c < |w| && forall d :: 0 <= d < |w| ==> (w[d] == Free <==> c <= d)
  }

  ghost predicate NoneFree(w: seq<Place>) {
    forall c :: 0 <= c < |w| ==> w[c] != Free
  }

  /** g is the number of chunks left over the number of threads, rounded up. */
  ghost predicate RoundedUp(left: int, threads: nat, g: nat) {
    (g - 1) * threads < left <= g * threads
  }

  /** How many chunks thread t asks for when those from lo on are unclaimed. */
  ghost predicate AsksFor(cfg: Config, t: nat, lo: nat, want: nat) {
    match cfg.policy
    case SingleChunk => want == 1
    case Guided(weight) =>
      exists g: nat :: RoundedUp(cfg.chunks - lo, cfg.threads, g) && want == Weighted(g, t, weight)
  }

  /** The owner's share is multiplied by its weight, but never comes to nothing. */
  function Weighted(g: nat, t: nat, weight: nat): nat {
    if t > 0 then g else if weight == 0 then 1 else g * weight
  }

  /** Thread t is about to visit: a thief that is called, the owner after its stores. */
  predicate AtTheDoor(s: State, t: nat)
    requires t < |s.th|
  {
    if t == 0 then s.th[0].pc.Enter? else s.th[t].pc.Idle?
  }

  /** The claims grew by one range: the first unclaimed chunk and those of the share, now with t. */
  ghost predicate TookFirst(cfg: Config, s: State, s': State, t: nat) {
    && |s.where| == |s'.where| == cfg.chunks
    && |s'.claims| == |s.claims| + 1 && s'.claims[..|s.claims|] == s.claims
    && var r := s'.claims[|s.claims|];
    && FirstFree(s.where, r.lo)
    && TookRange(cfg, s.where, s'.where, t, r.lo, r.hi)
  }

  ghost predicate TookRange(cfg: Config, w: seq<Place>, w': seq<Place>, t: nat, lo: nat, hi: nat)
    requires |w| == |w'| == cfg.chunks
  {
    && (exists want: nat :: AsksFor(cfg, t, lo, want) && hi + 1 == Clip(lo + want, cfg.chunks))
    && forall c :: 0 <= c < cfg.chunks ==> w'[c] == if lo <= c <= hi then Held(t) else w[c]
  }

  function ClaimActions(cfg: Config): nat { if cfg.policy.SingleChunk? then 2 else 3 }

  lemma GrabIsShare(cfg: Config, snapshot: nat, t: nat)
    requires cfg.Sized() && snapshot < cfg.chunks && cfg.policy.Guided?
    ensures AsksFor(cfg, t, snapshot, Grab(cfg, snapshot, t == 0))
  {
    var left := cfg.chunks - snapshot;
    var g := CeilDiv(left, cfg.threads);
    CeilDivRounds(left, cfg.threads);
    if cfg.policy.weight > 0 { PositiveProduct(g, cfg.policy.weight); }
    assert Grab(cfg, snapshot, t == 0) == Weighted(g, t, cfg.policy.weight);
  }

  lemma PositiveProduct(a: nat, b: nat)
    requires a > 0 && b > 0
    ensures a * b > 0
  {
  }

  lemma CeilDivRounds(a: nat, d: nat)
    requires a > 0 && d > 0
    ensures RoundedUp(a, d, CeilDiv(a, d)) && CeilDiv(a, d) >= 1
  {
    var q := (a + d - 1) / d;
    assert a + d - 1 == d * q + (a + d - 1) % d;
    if q <= 0 { assert false; }
    assert (q - 1) * d == d * q - d && q * d == d * q;
  }

  /** The first unclaimed chunk is where the counter stands. */
  lemma FreeFrom(cfg: Config, s: State)
    requires Control(cfg, s)
    ensures NoneFree(s.where) <==> Next(cfg, s) >= cfg.chunks
    ensures 0 <= Next(cfg, s)
    ensures Next(cfg, s) < cfg.chunks ==> FirstFree(s.where, Next(cfg, s))
  {
    hide ThreadsOk, OwnerOk, RanOk, Tiles;
    if Next(cfg, s) < cfg.chunks { assert s.where[Next(cfg, s)] == Free; }
  }

  lemma ClaimTakes(cfg: Config, s: State, t: nat)
    requires Control(cfg, s) && t < cfg.threads && s.th[t].pc.Claim? && !NoneFree(s.where)
    requires Next(cfg, s) >= 0 && AsksFor(cfg, t, Next(cfg, s), s.th[t].pc.grab)
    ensures TookFirst(cfg, s, ClaimStep(cfg, s, t, s.th[t].pc.grab), t)
  {
    hide AsksFor, OwnerOk, RanOk, Tiles, HandsOk;
    FreeFrom(cfg, s);
    assert PcOk(cfg, t, s.th[t]);
    var lo, want := Next(cfg, s), s.th[t].pc.grab;
    var hi := Clip(lo + want, cfg.chunks) - 1;
    var s' := ClaimStep(cfg, s, t, want);
    assert s'.claims == s.claims + [Range(lo, hi)];
    assert s'.where == Mark(s.where, lo, hi, Held(t));
    assert TookRange(cfg, s.where, s'.where, t, lo, hi);
  }

  lemma ClaimMisses(cfg: Config, s: State, t: nat)
    requires Control(cfg, s) && t < cfg.threads && s.th[t].pc.Claim? && NoneFree(s.where)
    ensures var s' := ClaimStep(cfg, s, t, s.th[t].pc.grab); s'.claims == s.claims && s'.where == s.where
  {
    hide OwnerOk, RanOk, Tiles, HandsOk;
    FreeFrom(cfg, s);
    assert PcOk(cfg, t, s.th[t]);
  }

  lemma OneAction(cfg: Config, s: State, t: nat, ch: Choice) returns (s1: State)
    requires Control(cfg, s) && t < cfg.threads
    ensures cfg.Sized() && |s.th| == cfg.threads
    ensures s1 == Step(cfg, s, t, ch) == Acting(cfg, s, t, ch, 1)
  {
    s1 := Step(cfg, s, t, ch);
    assert Acting(cfg, s, t, ch, 0) == s;
  }

  /** Places at which a thread without work can be while nothing is unclaimed. */
  predicate Fruitless(t: nat, th: Thread) {
    && th.count == 0
    && (th.pc.Snap? || th.pc.Claim? ||
        if t > 0 then th.pc.Idle?
        else th.pc.Enter? || th.pc.Waiting? || th.pc.Recheck? || th.pc.ClearOwn? || th.pc.Collect?)
  }

  lemma FruitlessStep(cfg: Config, s: State, t: nat, ch: Choice)
    requires Control(cfg, s) && t < cfg.threads && NoneFree(s.where) && Fruitless(t, s.th[t]) && !s.th[t].pc.Collect?
    ensures var s' := Step(cfg, s, t, ch); s'.claims == s.claims && s'.where == s.where && Fruitless(t, s'.th[t])
    ensures Step(cfg, s, t, ch).th[t].pc.Collect? ==> s.th[t].pc.Recheck? || s.th[t].pc.ClearOwn?
    ensures s.th[t].pc.Enter? || s.th[t].pc.Idle? ==>
              var pc := Step(cfg, s, t, ch).th[t].pc; !pc.Recheck? && !pc.ClearOwn?
  {
    hide HandsOk, RanOk, Tiles, OwnerOk, PlacesOk, Mark;
    assert PcOk(cfg, t, s.th[t]);
    FreeFrom(cfg, s);
    if s.th[t].pc.Claim? { ClaimMisses(cfg, s, t); }
  }

  /** What thread t is at after it has claimed a range. */
  predicate Claimant(cfg: Config, th: Thread, until: bool) {
    (th.pc.Clear? || th.pc.Run?) && th.count == 0 && th.until == until
  }

  /** The other threads stay where they are, and no execution starts or ends. */
  ghost predicate OthersStay(s: State, s': State, t: nat) {
    && s'.given == s.given && s'.results == s.results
    && |s'.th| == |s.th| && forall u :: 0 <= u < |s.th| && u != t ==> s'.th[u] == s.th[u]
  }

  lemma DoorStep(cfg: Config, s: State, t: nat, ch: Choice)
    requires Control(cfg, s) && t < cfg.threads && !NoneFree(s.where) && AtTheDoor(s, t)
    ensures var s' := Step(cfg, s, t, ch);
            s'.th[t].pc == LoopHead(cfg) && s'.th[t].count == 0 && s'.th[t].until == (t == 0 || ch.until)
    ensures var s' := Step(cfg, s, t, ch); s'.where == s.where && s'.claims == s.claims && s'.counter == s.counter
    ensures OthersStay(s, Step(cfg, s, t, ch), t)
  {
    hide HandsOk, RanOk, Tiles, OwnerOk, PlacesOk, Mark, ThreadsOk;
    FreeFrom(cfg, s);
  }

  lemma SnapAsks(cfg: Config, s: State, t: nat)
    requires Control(cfg, s) && t < cfg.threads && !NoneFree(s.where) && s.th[t].pc.Snap?
    ensures var s' := SnapStep(cfg, s, t); s'.where == s.where && s'.claims == s.claims && s'.counter == s.counter
    ensures OthersStay(s, SnapStep(cfg, s, t), t)
    ensures var s' := SnapStep(cfg, s, t);
            && s'.th[t].pc.Claim? && s'.th[t].count == s.th[t].count && s'.th[t].until == s.th[t].until
            && s.counter >= 0 && AsksFor(cfg, t, s.counter, s'.th[t].pc.grab)
  {
    hide HandsOk, RanOk, Tiles, OwnerOk, PlacesOk, Mark, AsksFor, Grab;
    assert PcOk(cfg, t, s.th[t]);
    FreeFrom(cfg, s);
    GrabIsShare(cfg, s.counter, t);
  }

  lemma ClaimLands(cfg: Config, s: State, t: nat)
    requires Control(cfg, s) && t < cfg.threads && s.th[t].pc.Claim? && !NoneFree(s.where)
    ensures var th := ClaimStep(cfg, s, t, s.th[t].pc.grab).th[t];
            (th.pc.Clear? || th.pc.Run?) && th.count == s.th[t].count && th.until == s.th[t].until
    ensures OthersStay(s, ClaimStep(cfg, s, t, s.th[t].pc.grab), t)
  {
    hide HandsOk, RanOk, Tiles, OwnerOk, PlacesOk, Mark;
    assert PcOk(cfg, t, s.th[t]);
    FreeFrom(cfg, s);
  }

  lemma VisitTakes(cfg: Config, s: State, t: nat, ch: Choice)
    requires Control(cfg, s) && t < cfg.threads && AtTheDoor(s, t) && !NoneFree(s.where)
    ensures var s' := Acting(cfg, s, t, ch, ClaimActions(cfg));
            TookFirst(cfg, s, s', t) && Claimant(cfg, s'.th[t], t == 0 || ch.until) && OthersStay(s, s', t)
    ensures Control(cfg, Acting(cfg, s, t, ch, ClaimActions(cfg)))
  {
    hide Control, AsksFor, NoneFree, Step;
    var s1 := OneAction(cfg, s, t, ch);
    StepControl(cfg, s, t, ch);
    DoorStep(cfg, s, t, ch);
    if cfg.policy.SingleChunk? {
      SingleAsks(cfg, t, s1);
      ClaimNow(cfg, s1, t, ch);
      assert Acting(cfg, s, t, ch, 2) == Step(cfg, s1, t, ch);
    } else {
      SnapIsStep(cfg, s1, t, ch);
      SnapAsks(cfg, s1, t);
      var s2 := Step(cfg, s1, t, ch);
      assert Acting(cfg, s, t, ch, 2) == s2;
      StepControl(cfg, s1, t, ch);
      ClaimNow(cfg, s2, t, ch);
      assert Acting(cfg, s, t, ch, 3) == Step(cfg, s2, t, ch);
    }
  }

  lemma SnapIsStep(cfg: Config, s: State, t: nat, ch: Choice)
    requires cfg.Sized() && t < |s.th| && s.th[t].pc.Snap?
    ensures Step(cfg, s, t, ch) == SnapStep(cfg, s, t)
  {
  }

  lemma ClaimNow(cfg: Config, s: State, t: nat, ch: Choice)
    requires Control(cfg, s) && t < cfg.threads && s.th[t].pc.Claim? && !NoneFree(s.where)
    requires Next(cfg, s) >= 0 && AsksFor(cfg, t, Next(cfg, s), s.th[t].pc.grab)
    ensures var s' := Step(cfg, s, t, ch);
            && Control(cfg, s') && TookFirst(cfg, s, s', t) && OthersStay(s, s', t)
            && (s'.th[t].pc.Clear? || s'.th[t].pc.Run?)
            && s'.th[t].count == s.th[t].count && s'.th[t].until == s.th[t].until
  {
    StepControl(cfg, s, t, ch);
    hide Control, AsksFor, NoneFree, ClaimStep;
    ClaimTakes(cfg, s, t);
    ClaimLands(cfg, s, t);
  }

  lemma SingleAsks(cfg: Config, t: nat, s: State)
    requires Control(cfg, s) && cfg.policy.SingleChunk?
    ensures Next(cfg, s) >= 0 && AsksFor(cfg, t, Next(cfg, s), 1)
  {
    FreeFrom(cfg, s);
  }

  lemma VisitMisses(cfg: Config, s: State, t: nat, ch: Choice)
    requires Control(cfg, s) && t < cfg.threads && AtTheDoor(s, t) && NoneFree(s.where)
    ensures var s' := Acting(cfg, s, t, ch, ClaimActions(cfg)); s'.claims == s.claims && s'.where == s.where
  {
    hide Step, ThreadsOk, OwnerOk, PlacesOk, RanOk, Tiles;
    CountAtTheDoor(cfg, s, t);
    var s1 := OneAction(cfg, s, t, ch);
    FruitlessStep(cfg, s, t, ch);
    StepControl(cfg, s, t, ch);
    var s2 := Step(cfg, s1, t, ch);
    assert Acting(cfg, s, t, ch, 2) == s2;
    FruitlessStep(cfg, s1, t, ch);
    StepControl(cfg, s1, t, ch);
    assert Acting(cfg, s, t, ch, 3) == Step(cfg, s2, t, ch);
    FruitlessStep(cfg, s2, t, ch);
  }

  lemma CountAtTheDoor(cfg: Config, s: State, t: nat)
    requires Control(cfg, s) && t < cfg.threads && AtTheDoor(s, t)
    ensures s.th[t].count == 0
  {
    hide HandsOk, RanOk, Tiles, OwnerOk, PlacesOk;
    assert PcOk(cfg, t, s.th[t]);
  }

  /**
    From every reachable state, whatever the others are in the middle of: a thread
    that comes to the loop gets exactly one range with its first claim if a chunk is
    unclaimed, the first unclaimed ones and as many as its share, and holds it; if
    none is, nothing changes hands.
   */
  lemma {:induction false} FirstComeFirstServed(cfg: Config, a: Args, v: Value, sched: Schedule, t: nat, ch: Choice)
    requires cfg.Sized() && Legal(cfg, sched) && t < cfg.threads
    requires AtTheDoor(After(cfg, a, v, sched), t)
    ensures Legal(cfg, sched + Alone(t, ch, ClaimActions(cfg)))
    ensures var s, s' := After(cfg, a, v, sched), After(cfg, a, v, sched + Alone(t, ch, ClaimActions(cfg)));
            if NoneFree(s.where) then s'.claims == s.claims && s'.where == s.where else TookFirst(cfg, s, s', t)
  {
    EveryRunControlled(cfg, a, v, sched);
    ActingIsAfter(cfg, a, v, sched, t, ch, ClaimActions(cfg));
    var s := After(cfg, a, v, sched);
    hide *;
    if NoneFree(s.where) { VisitMisses(cfg, s, t, ch); } else { VisitTakes(cfg, s, t, ch); }
  }

  // ------------------------------------------------------------------ the whole visit

  predicate LeftLoop(t: nat, pc: PC) { if t == 0 then pc.Waiting? else pc.Idle? }

  /** Thread t's chunks, and with `all` also the unclaimed ones, are reported; no others changed. */
  ghost predicate Settled(w: seq<Place>, w': seq<Place>, t: nat, all: bool) {
    && |w'| == |w|
    && forall c :: 0 <= c < |w| ==>
         w'[c] == if w[c] == Held(t) || w[c] == Ran(t) || (all && w[c] == Free) then Reported else w[c]
  }

  /** How far thread t, acting alone, is from leaving the loop: unclaimed chunks, then its place. */
  function Left(cfg: Config, s: State): nat {
    var n := Next(cfg, s);
    if n < 0 || n >= cfg.chunks then 0 else cfg.chunks - n
  }

  function Rank(s: State, t: nat): nat
    requires t < |s.th|
  {
    match s.th[t].pc
    case Clear(_, _) => 8
    case Run(_, _) => 7
    case Snap => 6
    case Claim(_) => 5
    case MergeCas(seen) => if seen == s.ret then 2 else 4
    case MergeLoad => 3
    case _ => 1
  }

  /** In the loop, and past it only with nothing left that the thread was to take. */
  ghost predicate OnTheWay(s: State, t: nat)
    requires t < |s.th|
  {
    var th := s.th[t];
    && InLoop(th.pc)
    && (th.until ==> Merging(th.pc) || th.pc.Report? ==> NoneFree(s.where))
    && (!th.until ==> !th.pc.Snap? && !th.pc.Claim?)
  }

  predicate Mine(p: Place, t: nat, all: bool) { p == Held(t) || p == Ran(t) || (all && p == Free) }

  /** The same chunks remain to be reported by t, and no others changed. */
  ghost predicate SameToCome(w: seq<Place>, w': seq<Place>, t: nat, all: bool) {
    && |w'| == |w|
    && forall c :: 0 <= c < |w| ==> Mine(w'[c], t, all) == Mine(w[c], t, all) && (Mine(w[c], t, all) || w'[c] == w[c])
  }

  ghost predicate NoneMine(w: seq<Place>, t: nat, all: bool) {
    forall c :: 0 <= c < |w| ==> !Mine(w[c], t, all)
  }

  /** Thread t's step brought it nearer the end of its visit, or to the end with nothing left to do. */
  ghost predicate Advances(cfg: Config, s: State, s': State, t: nat)
    requires t < |s.th| == |s'.th|
  {
    var all := s.th[t].until;
    && SameToCome(s.where, s'.where, t, all) && s'.th[t].until == all
    && (!all ==> s'.claims == s.claims)
    && OthersStay(s, s', t)
    && if LeftLoop(t, s'.th[t].pc) then NoneMine(s'.where, t, all)
       else
         && OnTheWay(s', t)
         && (Left(cfg, s') < Left(cfg, s) || (Left(cfg, s') == Left(cfg, s) && Rank(s', t) < Rank(s, t)))
  }

  lemma FinishAdvances(cfg: Config, s: State, t: nat, more: nat)
    requires Control(cfg, s) && t < cfg.threads && OnTheWay(s, t) && NoneFree(s.where)
    requires s.th[t].pc.Snap? || s.th[t].pc.Claim?
    ensures Advances(cfg, s, Finish(cfg, s.(counter := s.counter + more), t), t)
  {
    hide RanOk, Tiles, OwnerOk, InPlace;
    FreeFrom(cfg, s);
    assert PcOk(cfg, t, s.th[t]) && HandsOk(s.where, t, s.th[t]);
    NoneInPlace(s.where, Ran(t));
  }

  lemma SnapAdvances(cfg: Config, s: State, t: nat)
    requires Control(cfg, s) && t < cfg.threads && OnTheWay(s, t) && s.th[t].pc.Snap?
    ensures Advances(cfg, s, SnapStep(cfg, s, t), t)
  {
    hide HandsOk, RanOk, Tiles, OwnerOk, PlacesOk;
    assert PcOk(cfg, t, s.th[t]);
    FreeFrom(cfg, s);
    if NoneFree(s.where) {
      FinishAdvances(cfg, s, t, 0);
      assert s.(counter := s.counter + 0) == s;
    }
  }

  lemma ClaimAdvances(cfg: Config, s: State, t: nat)
    requires Control(cfg, s) && t < cfg.threads && OnTheWay(s, t) && s.th[t].pc.Claim?
    ensures Advances(cfg, s, ClaimStep(cfg, s, t, s.th[t].pc.grab), t)
  {
    hide HandsOk, RanOk, Tiles, OwnerOk, PlacesOk;
    assert PcOk(cfg, t, s.th[t]);
    FreeFrom(cfg, s);
    if NoneFree(s.where) { FinishAdvances(cfg, s, t, s.th[t].pc.grab); }
  }

  lemma RunAdvances(cfg: Config, s: State, t: nat)
    requires Control(cfg, s) && t < cfg.threads && OnTheWay(s, t) && s.th[t].pc.Run? && s.th[t].pc.lo <= s.th[t].pc.hi
    ensures Advances(cfg, s, RunStep(cfg, s, t, s.th[t].pc.lo, s.th[t].pc.hi), t)
  {
    hide RanOk, Tiles, OwnerOk, Record, InPlace;
    assert PcOk(cfg, t, s.th[t]) && HandsOk(s.where, t, s.th[t]);
    assert s.where[s.th[t].pc.hi] == Held(t);
  }

  lemma OtherAdvances(cfg: Config, s: State, t: nat, ch: Choice)
    requires Control(cfg, s) && t < cfg.threads && OnTheWay(s, t) && !ch.fail
    requires s.th[t].pc.Clear? || Merging(s.th[t].pc)
    ensures Advances(cfg, s, Step(cfg, s, t, ch), t)
  {
    hide RanOk, Tiles, OwnerOk, PlacesOk, HandsOk;
  }

  lemma StepAdvances(cfg: Config, s: State, t: nat, ch: Choice)
    requires Control(cfg, s) && t < cfg.threads && OnTheWay(s, t) && !ch.fail && !s.th[t].pc.Report?
    ensures Advances(cfg, s, Step(cfg, s, t, ch), t)
  {
    hide Advances, HandsOk, RanOk, Tiles, OwnerOk, PlacesOk, SnapStep, RunStep, ClaimStep, NoneFree;
    assert PcOk(cfg, t, s.th[t]);
    match s.th[t].pc
    case Snap => SnapAdvances(cfg, s, t);
    case Claim(_) => ClaimAdvances(cfg, s, t);
    case Run(_, _) => RunAdvances(cfg, s, t);
    case _ => OtherAdvances(cfg, s, t, ch);
  }

  /** The end of thread t's visit. */
  ghost predicate Departed(s: State, s': State, t: nat)
    requires t < |s.th| == |s'.th|
  {
    var all := s.th[t].until;
    && LeftLoop(t, s'.th[t].pc) && Settled(s.where, s'.where, t, all)
    && (!all ==> s'.claims == s.claims) && OthersStay(s, s', t)
  }

  lemma ReportSettles(cfg: Config, s: State, t: nat)
    requires Control(cfg, s) && t < cfg.threads && OnTheWay(s, t) && s.th[t].pc.Report?
    ensures Departed(s, ReportStep(s, t), t)
  {
    hide RanOk, Tiles, OwnerOk, PlacesOk, InPlace;
    assert PcOk(cfg, t, s.th[t]) && HandsOk(s.where, t, s.th[t]);
  }

  lemma AdvanceDeparts(cfg: Config, s: State, s1: State, s': State, t: nat)
    requires t < |s.th| == |s1.th| == |s'.th| && Advances(cfg, s, s1, t)
    requires if LeftLoop(t, s1.th[t].pc) then s' == s1 else Departed(s1, s', t)
    ensures Departed(s, s', t)
  {
    hide OnTheWay, Left, Rank;
  }

  /** Alone, a thread in the loop leaves it after finitely many actions, with all it had to do reported. */
  lemma {:induction false} VisitEnds(cfg: Config, s: State, t: nat, ch: Choice) returns (n: nat)
    requires Control(cfg, s) && t < cfg.threads && OnTheWay(s, t) && !ch.fail
    ensures Control(cfg, Acting(cfg, s, t, ch, n)) && Departed(s, Acting(cfg, s, t, ch, n), t)
    decreases Left(cfg, s), Rank(s, t)
  {
    hide Control, NoneFree, Step, Left, Rank, Departed;
    var s1 := OneAction(cfg, s, t, ch);
    StepControl(cfg, s, t, ch);
    if s.th[t].pc.Report? {
      ReportSettles(cfg, s, t);
      ReportIsStep(cfg, s, t, ch);
      n := 1;
    } else {
      StepAdvances(cfg, s, t, ch);
      if LeftLoop(t, s1.th[t].pc) {
        n := 1;
      } else {
        n := VisitEnds(cfg, s1, t, ch);
        ActingAdds(cfg, s, t, ch, 1, n);
        n := n + 1;
      }
      AdvanceDeparts(cfg, s, s1, Acting(cfg, s, t, ch, n), t);
    }
  }

  lemma ReportIsStep(cfg: Config, s: State, t: nat, ch: Choice)
    requires cfg.Sized() && t < |s.th| && s.th[t].pc.Report?
    ensures Step(cfg, s, t, ch) == ReportStep(s, t)
  {
  }

  /** From w to w' the chunks lo..hi were reported and no others changed. */
  ghost predicate ReportedRange(w: seq<Place>, w': seq<Place>, lo: nat, hi: nat) {
    && |w'| == |w|
    && forall c :: 0 <= c < |w| ==> w'[c] == if lo <= c <= hi then Reported else w[c]
  }

  ghost predicate ReportedFree(w: seq<Place>, w': seq<Place>) {
    && |w'| == |w|
    && forall c :: 0 <= c < |w| ==> w'[c] == if w[c] == Free then Reported else w[c]
  }

  lemma EmptyHanded(cfg: Config, s: State, t: nat)
    requires Control(cfg, s) && t < cfg.threads && AtTheDoor(s, t)
    ensures forall c :: 0 <= c < cfg.chunks ==> s.where[c] != Held(t) && s.where[c] != Ran(t)
  {
    hide RanOk, Tiles, OwnerOk, PlacesOk, InPlace;
    assert PcOk(cfg, t, s.th[t]) && HandsOk(s.where, t, s.th[t]);
    NoneInPlace(s.where, Ran(t));
  }

  /** s' has one claim more than s: the first unclaimed chunks, which are reported and counted. */
  ghost predicate OneRangeDone(cfg: Config, s: State, s': State) {
    && |s'.claims| == |s.claims| + 1 && s'.claims[..|s.claims|] == s.claims
    && var r := s'.claims[|s.claims|];
    && FirstFree(s.where, r.lo) && r.lo <= r.hi < |s.where|
    && ReportedRange(s.where, s'.where, r.lo, r.hi)
    && s'.done == s.done + (r.hi + 1 - r.lo)
  }

  lemma VisitOnce(cfg: Config, s: State, t: nat, ch: Choice) returns (n: nat)
    requires Control(cfg, s) && 0 < t < cfg.threads && AtTheDoor(s, t) && !NoneFree(s.where) && !ch.until && !ch.fail
    ensures var s' := Acting(cfg, s, t, ch, n); s'.th[t].pc.Idle? && OneRangeDone(cfg, s, s')
  {
    hide Control, Step, TookRange, FirstFree, NoneFree, Settled;
    var m := ClaimActions(cfg);
    ShapeOf(cfg, s);
    VisitTakes(cfg, s, t, ch);
    var s2 := Acting(cfg, s, t, ch, m);
    n := VisitEnds(cfg, s2, t, ch);
    var s' := Acting(cfg, s2, t, ch, n);
    ActingAdds(cfg, s, t, ch, m, n);
    n := m + n;
    var r := s2.claims[|s.claims|];
    RangeReported(cfg, s, s2, s', t, r.lo, r.hi);
    RangeCounted(cfg, s, s', r.lo, r.hi);
  }

  lemma RangeReported(cfg: Config, s: State, s2: State, s': State, t: nat, lo: nat, hi: nat)
    requires Control(cfg, s) && t < cfg.threads && AtTheDoor(s, t) && |s2.where| == cfg.chunks
    requires FirstFree(s.where, lo) && TookRange(cfg, s.where, s2.where, t, lo, hi)
    requires Settled(s2.where, s'.where, t, false)
    ensures lo <= hi < cfg.chunks && ReportedRange(s.where, s'.where, lo, hi)
  {
    hide ThreadsOk, RanOk, Tiles, OwnerOk, PlacesOk;
    EmptyHanded(cfg, s, t);
    AsksForSome(cfg, t, lo, hi);
  }

  /** A claim asks for at least one chunk. */
  lemma AsksForSome(cfg: Config, t: nat, lo: nat, hi: nat)
    requires cfg.Sized() && lo < cfg.chunks
    requires exists want: nat :: AsksFor(cfg, t, lo, want) && hi + 1 == Clip(lo + want, cfg.chunks)
    ensures lo <= hi < cfg.chunks
  {
    var want: nat :| AsksFor(cfg, t, lo, want) && hi + 1 == Clip(lo + want, cfg.chunks);
    if cfg.policy.Guided? {
      var g: nat :| RoundedUp(cfg.chunks - lo, cfg.threads, g) && want == Weighted(g, t, cfg.policy.weight);
      if g == 0 { assert false; }
      if t == 0 && cfg.policy.weight > 0 { PositiveProduct(g, cfg.policy.weight); }
    }
  }

  lemma RangeCounted(cfg: Config, s: State, s': State, lo: nat, hi: nat)
    requires Control(cfg, s) && Control(cfg, s') && s'.th[0] == s.th[0]
    requires FirstFree(s.where, lo) && lo <= hi < cfg.chunks && ReportedRange(s.where, s'.where, lo, hi)
    ensures s'.done == s.done + (hi + 1 - lo)
  {
    hide ThreadsOk, RanOk, Tiles, PlacesOk;
    assert s.where[lo] == Free;
    assert InPlace(s'.where, Reported) == InPlace(s.where, Reported) + Interval(lo, hi);
    assert InPlace(s.where, Reported) !! Interval(lo, hi);
  }

  lemma VisitAll(cfg: Config, s: State, t: nat, ch: Choice) returns (n: nat)
    requires Control(cfg, s) && t < cfg.threads && AtTheDoor(s, t) && (t == 0 || ch.until) && !ch.fail
    ensures var s' := Acting(cfg, s, t, ch, n);
            Control(cfg, s') && LeftLoop(t, s'.th[t].pc) && ReportedFree(s.where, s'.where) && OthersStay(s, s', t)
  {
    hide Control, Step, Settled, ReportedFree, NoneFree;
    var s1 := OneAction(cfg, s, t, ch);
    StepControl(cfg, s, t, ch);
    EntersOrLeaves(cfg, s, t, ch);
    if LeftLoop(t, s1.th[t].pc) {
      n := 1;
    } else {
      n := VisitEnds(cfg, s1, t, ch);
      var s' := Acting(cfg, s1, t, ch, n);
      ActingAdds(cfg, s, t, ch, 1, n);
      n := n + 1;
      FreeReported(cfg, s, s', t);
    }
  }

  lemma EntersOrLeaves(cfg: Config, s: State, t: nat, ch: Choice)
    requires Control(cfg, s) && t < cfg.threads && AtTheDoor(s, t) && (t == 0 || ch.until)
    ensures var s1 := Step(cfg, s, t, ch);
            && s1.where == s.where && OthersStay(s, s1, t)
            && if LeftLoop(t, s1.th[t].pc) then ReportedFree(s.where, s1.where) else OnTheWay(s1, t) && s1.th[t].until
  {
    hide ThreadsOk, RanOk, Tiles, OwnerOk, PlacesOk;
    FreeFrom(cfg, s);
  }

  lemma FreeReported(cfg: Config, s: State, s': State, t: nat)
    requires Control(cfg, s) && t < cfg.threads && AtTheDoor(s, t) && Settled(s.where, s'.where, t, true)
    ensures ReportedFree(s.where, s'.where)
  {
    hide ThreadsOk, RanOk, Tiles, OwnerOk, PlacesOk;
    EmptyHanded(cfg, s, t);
  }

  /**
    A thief called without work_until_done claims one range, runs it, reports it and
    goes away, however many chunks are left.
   */
  lemma {:induction false} OneRangeAVisit(cfg: Config, a: Args, v: Value, sched: Schedule, t: nat, ch: Choice)
    returns (n: nat)
    requires cfg.Sized() && Legal(cfg, sched) && 0 < t < cfg.threads && !ch.until && !ch.fail
    requires After(cfg, a, v, sched).th[t].pc.Idle? && !NoneFree(After(cfg, a, v, sched).where)
    ensures Legal(cfg, sched + Alone(t, ch, n))
    ensures var s, s' := After(cfg, a, v, sched), After(cfg, a, v, sched + Alone(t, ch, n));
            s'.th[t].pc.Idle? && OneRangeDone(cfg, s, s')
  {
    EveryRunControlled(cfg, a, v, sched);
    n := VisitOnce(cfg, After(cfg, a, v, sched), t, ch);
    hide Step;
    ActingIsAfter(cfg, a, v, sched, t, ch, n);
  }

  /**
    A thief called with work_until_done, or the owner, leaves the loop only when it
    has run and reported everything that was unclaimed, if nobody else takes it.
   */
  lemma {:induction false} VisitUntilDone(cfg: Config, a: Args, v: Value, sched: Schedule, t: nat, ch: Choice)
    returns (n: nat)
    requires cfg.Sized() && Legal(cfg, sched) && t < cfg.threads && (t == 0 || ch.until) && !ch.fail
    requires AtTheDoor(After(cfg, a, v, sched), t)
    ensures Legal(cfg, sched + Alone(t, ch, n))
    ensures var s, s' := After(cfg, a, v, sched), After(cfg, a, v, sched + Alone(t, ch, n));
            LeftLoop(t, s'.th[t].pc) && ReportedFree(s.where, s'.where)
  {
    EveryRunControlled(cfg, a, v, sched);
    n := VisitAll(cfg, After(cfg, a, v, sched), t, ch);
    hide Step;
    ActingIsAfter(cfg, a, v, sched, t, ch, n);
  }

  // ------------------------------------------------------------------ the owner alone

  ghost predicate AllFree(w: seq<Place>) {
    forall c :: 0 <= c < |w| ==> w[c] == Free
  }

  lemma FromFreeToReported(w: seq<Place>, w': seq<Place>)
    requires AllFree(w) && ReportedFree(w, w')
    ensures AllReported(w')
  {
  }

  /** From its call to the loop: the owner's stores have put every chunk up for claiming. */
  lemma OwnerOpens(cfg: Config, s: State, ch: Choice)
    requires Control(cfg, s) && s.th[0].pc.Idle?
    ensures var s' := Acting(cfg, s, 0, ch, 5);
            && Control(cfg, s') && s'.th[0].pc.Enter? && s'.given == s.given + [ch.args] && s'.results == s.results
            && AllFree(s'.where)
  {
    hide Control;
    assert cfg.Sized() && |s.th| == cfg.threads && |s.where| == cfg.chunks by { ShapeOf(cfg, s); }
    var s0 := Acting(cfg, s, 0, ch, 0);
    var s1 := Acting(cfg, s, 0, ch, 1);
    StepControl(cfg, s0, 0, ch);
    var s2 := Acting(cfg, s, 0, ch, 2);
    StepControl(cfg, s1, 0, ch);
    var s3 := Acting(cfg, s, 0, ch, 3);
    StepControl(cfg, s2, 0, ch);
    var s4 := Acting(cfg, s, 0, ch, 4);
    StepControl(cfg, s3, 0, ch);
    StepControl(cfg, s4, 0, ch);
  }

  lemma ShapeOf(cfg: Config, s: State)
    requires Control(cfg, s)
    ensures cfg.Sized() && |s.th| == cfg.threads && |s.where| == cfg.chunks
  {
  }

  /** From its wait, all chunks reported: the owner takes the result. */
  lemma OwnerCloses(cfg: Config, s: State, ch: Choice) returns (n: nat)
    requires Control(cfg, s) && s.th[0].pc.Waiting? && AllReported(s.where)
    ensures var s' := Acting(cfg, s, 0, ch, n);
            s'.th[0].pc.Idle? && s'.given == s.given && s'.results == s.results + [s'.ret] && s'.where == s.where
  {
    hide RanOk, Tiles, PlacesOk, ThreadsOk, InPlace;
    AllCounted(s.where);
    var s0 := Acting(cfg, s, 0, ch, 0);
    var s1 := Acting(cfg, s, 0, ch, 1);
    var s2 := Acting(cfg, s, 0, ch, 2);
    var s3 := Acting(cfg, s, 0, ch, 3);
    n := if s.victim then 4 else 3;
  }

  /**
    The owner does not depend on thieves: from every reachable state in which it is
    between calls, its own actions start an execution with the given arguments, run
    every chunk and end it with the shared value as the result.
   */
  lemma {:induction false} OwnerFinishesAlone(cfg: Config, a: Args, v: Value, sched: Schedule, ch: Choice)
    returns (n: nat)
    requires cfg.Sized() && Legal(cfg, sched) && !ch.fail
    requires After(cfg, a, v, sched).th[0].pc.Idle?
    ensures Legal(cfg, sched + Alone(0, ch, n))
    ensures var s, s' := After(cfg, a, v, sched), After(cfg, a, v, sched + Alone(0, ch, n));
            && s'.th[0].pc.Idle? && s'.given == s.given + [ch.args]
            && s'.results == s.results + [s'.ret] && AllReported(s'.where)
  {
    EveryRunControlled(cfg, a, v, sched);
    n := OwnerExecutes(cfg, After(cfg, a, v, sched), ch);
    hide Step;
    ActingIsAfter(cfg, a, v, sched, 0, ch, n);
  }

  /** The owner's call up to its wait, by itself. */
  lemma OwnerWorks(cfg: Config, s: State, ch: Choice) returns (n: nat)
    requires Control(cfg, s) && cfg.Sized() && |s.th| == cfg.threads && s.th[0].pc.Idle? && !ch.fail
    ensures var s' := Acting(cfg, s, 0, ch, n);
            && Control(cfg, s') && s'.th[0].pc.Waiting? && s'.given == s.given + [ch.args]
            && s'.results == s.results && AllReported(s'.where)
  {
    hide Control, Step, Acting, AllFree, AllReported, ReportedFree;
    OwnerOpens(cfg, s, ch);
    var s5 := Acting(cfg, s, 0, ch, 5);
    n := VisitAll(cfg, s5, 0, ch);
    FromFreeToReported(s5.where, Acting(cfg, s5, 0, ch, n).where);
    ActingAdds(cfg, s, 0, ch, 5, n);
    n := 5 + n;
  }

  lemma OwnerExecutes(cfg: Config, s: State, ch: Choice) returns (n: nat)
    requires Control(cfg, s) && cfg.Sized() && |s.th| == cfg.threads && s.th[0].pc.Idle? && !ch.fail
    ensures var s' := Acting(cfg, s, 0, ch, n);
            && s'.th[0].pc.Idle? && s'.given == s.given + [ch.args]
            && s'.results == s.results + [s'.ret] && AllReported(s'.where)
  {
    hide *;
    var m := OwnerWorks(cfg, s, ch);
    var k := OwnerCloses(cfg, Acting(cfg, s, 0, ch, m), ch);
    ActingAdds(cfg, s, 0, ch, m, k);
    n := m + k;
  }

  // ------------------------------------------------------------------ what was called

  /** The arguments of the owner's calls, in call order. */
  ghost function Called(cfg: Config, a: Args, v: Value, sched: Schedule): seq<Args>
    requires cfg.Sized() && Legal(cfg, sched)
  {
    if sched == [] then []
    else
      var before, last := sched[..|sched| - 1], sched[|sched| - 1];
      Called(cfg, a, v, before) +
      if last.0 == 0 && After(cfg, a, v, before).th[0].pc.Idle? then [last.1.args] else []
  }

  /** Called, but not yet open to thieves. */
  predicate Opening(pc: PC) { pc.StoreRet? || pc.StoreDone? || pc.StoreCounter? }

  ghost function Taken(s: State): seq<Args>
    requires |s.th| > 0
  {
    s.given + if Opening(s.th[0].pc) then [s.args] else []
  }

  lemma StepTakes(cfg: Config, s: State, t: nat, ch: Choice)
    requires Control(cfg, s) && t < cfg.threads
    ensures |s.th| > 0 && Taken(Step(cfg, s, t, ch)) == Taken(s) + if t == 0 && s.th[0].pc.Idle? then [ch.args] else []
  {
    hide HandsOk, RanOk, Tiles, OwnerOk, PlacesOk, Step;
    assert PcOk(cfg, t, s.th[t]);
    if t > 0 {
      OthersUnmoved(cfg, s, t, ch, 0);
      ThievesTakeNone(cfg, s, t, ch);
    } else {
      OwnerTakes(cfg, s, ch);
    }
  }

  lemma ThievesTakeNone(cfg: Config, s: State, t: nat, ch: Choice)
    requires cfg.Sized() && 0 < t < |s.th| && PcOk(cfg, t, s.th[t])
    ensures var s' := Step(cfg, s, t, ch); s'.args == s.args && s'.given == s.given
  {
    hide Mark, Record, Grab, OpenStep;
  }

  lemma OwnerTakes(cfg: Config, s: State, ch: Choice)
    requires cfg.Sized() && |s.th| > 0 && PcOk(cfg, 0, s.th[0])
    ensures Taken(Step(cfg, s, 0, ch)) == Taken(s) + if s.th[0].pc.Idle? then [ch.args] else []
  {
    hide Mark, Record, Grab, ClaimStep, RunStep, SnapStep;
    match s.th[0].pc
    case Claim(g) => OwnerClaims(cfg, s, g);
    case Run(lo, hi) => OwnerRuns(cfg, s, lo, hi);
    case Snap => OwnerSnaps(cfg, s);
    case _ =>
  }

  lemma OwnerClaims(cfg: Config, s: State, grab: nat)
    requires |s.th| > 0 && s.th[0].pc.Claim?
    ensures Taken(ClaimStep(cfg, s, 0, grab)) == Taken(s)
  {
    hide Mark;
  }

  lemma OwnerRuns(cfg: Config, s: State, lo: nat, hi: nat)
    requires |s.th| > 0 && s.th[0].pc.Run? && lo <= hi
    ensures Taken(RunStep(cfg, s, 0, lo, hi)) == Taken(s)
  {
    hide Mark, Record;
  }

  lemma OwnerSnaps(cfg: Config, s: State)
    requires cfg.Sized() && |s.th| > 0 && s.th[0].pc.Snap?
    ensures Taken(SnapStep(cfg, s, 0)) == Taken(s)
  {
    hide Grab;
  }

  /** The executions are those the owner's caller asked for: in order, with their arguments, none added or dropped. */
  lemma {:induction false} GivenIsCalled(cfg: Config, a: Args, v: Value, sched: Schedule)
    requires cfg.Sized() && Legal(cfg, sched)
    ensures Taken(After(cfg, a, v, sched)) == Called(cfg, a, v, sched)
  {
    if sched != [] {
      hide Control, Step, Taken;
      var before, last := sched[..|sched| - 1], sched[|sched| - 1];
      GivenIsCalled(cfg, a, v, before);
      EveryRunControlled(cfg, a, v, before);
      StepTakes(cfg, After(cfg, a, v, before), last.0, last.1);
    }
  }

  // ------------------------------------------------------------------ when thieves are called

  /** What keeps the victim pointer up: only the holder of the last chunk is about to clear it. */
  ghost predicate Shown(cfg: Config, s: State)
    requires Shape(cfg, s)
  {
    && (forall t :: 0 <= t < cfg.threads && s.th[t].pc.Clear? ==> s.th[t].pc.hi == cfg.chunks - 1)
    && (!Closed(s.th[0].pc) && !s.th[0].pc.SetVictim? && s.where[cfg.chunks - 1] == Free ==> s.victim)
  }

  lemma OwnClear(cfg: Config, s: State, t: nat, ch: Choice)
    requires cfg.Sized() && t < |s.th| && PcOk(cfg, t, s.th[t])
    ensures var pc := Step(cfg, s, t, ch).th[t].pc; pc.Clear? ==> pc.hi == cfg.chunks - 1
  {
    hide Mark, Record, Grab, ClaimStep, RunStep;
    match s.th[t].pc
    case Claim(g) => ClaimClear(cfg, s, t, g);
    case Run(lo, hi) => RunClear(cfg, s, t, lo, hi);
    case _ =>
  }

  lemma ClaimClear(cfg: Config, s: State, t: nat, grab: nat)
    requires cfg.Sized() && t < |s.th|
    ensures var pc := ClaimStep(cfg, s, t, grab).th[t].pc; pc.Clear? ==> s.th[t].pc.Clear? || pc.hi == cfg.chunks - 1
  {
    hide Mark;
  }

  lemma RunClear(cfg: Config, s: State, t: nat, lo: nat, hi: nat)
    requires t < |s.th| && lo <= hi
    ensures !RunStep(cfg, s, t, lo, hi).th[t].pc.Clear?
  {
    hide Mark, Record;
  }

  lemma OthersUnmoved(cfg: Config, s: State, t: nat, ch: Choice, u: nat)
    requires cfg.Sized() && t < |s.th| && u < |s.th| && u != t && PcOk(cfg, t, s.th[t])
    ensures Step(cfg, s, t, ch).th[u] == s.th[u]
  {
    hide Mark, Record, Grab;
  }

  lemma LastStaysFree(cfg: Config, s: State, t: nat, ch: Choice)
    requires Control(cfg, s) && t < cfg.threads && !s.th[t].pc.StoreCounter?
    ensures var s' := Step(cfg, s, t, ch);
            |s'.where| == cfg.chunks && (s'.where[cfg.chunks - 1] == Free ==> s.where[cfg.chunks - 1] == Free)
  {
    hide HandsOk, Tiles, RanOk, OwnerOk, PlacesOk, Record, Grab;
    assert PcOk(cfg, t, s.th[t]);
  }

  lemma VictimStays(cfg: Config, s: State, t: nat, ch: Choice)
    requires Control(cfg, s) && Shown(cfg, s) && t < cfg.threads
    ensures var s' := Step(cfg, s, t, ch);
            s.victim && !s'.victim ==> Closed(s.th[0].pc) || s.where[cfg.chunks - 1] != Free
  {
    hide Tiles, RanOk, OwnerOk, PlacesOk, Record, Grab, Mark, InPlace;
    assert PcOk(cfg, t, s.th[t]) && HandsOk(s.where, t, s.th[t]);
  }

  lemma OwnerOpenStep(cfg: Config, s: State, t: nat, ch: Choice)
    requires Control(cfg, s) && t < cfg.threads
    ensures var s' := Step(cfg, s, t, ch);
            !Closed(s'.th[0].pc) && !s'.th[0].pc.SetVictim? ==>
              (!Closed(s.th[0].pc) && (!s.th[0].pc.SetVictim? || s'.victim)) && !(t == 0 && s.th[0].pc.StoreCounter?)
  {
    hide HandsOk, Tiles, RanOk, OwnerOk, PlacesOk, Record, Grab, Mark;
    assert PcOk(cfg, t, s.th[t]);
  }

  lemma ShownKeeps(cfg: Config, s: State, t: nat, ch: Choice)
    requires Control(cfg, s) && Shown(cfg, s) && t < cfg.threads
    ensures Shape(cfg, Step(cfg, s, t, ch)) && Shown(cfg, Step(cfg, s, t, ch))
  {
    assert PcOk(cfg, t, s.th[t]);
    var s' := Step(cfg, s, t, ch);
    StepControl(cfg, s, t, ch);
    hide Step, PcOk, ThreadsOk, HandsOk, Tiles, RanOk, OwnerOk, PlacesOk;
    forall u | 0 <= u < cfg.threads && s'.th[u].pc.Clear? ensures s'.th[u].pc.hi == cfg.chunks - 1 {
      if u == t { OwnClear(cfg, s, t, ch); } else { OthersUnmoved(cfg, s, t, ch, u); }
    }
    OwnerOpenStep(cfg, s, t, ch);
    VictimStays(cfg, s, t, ch);
    if !s.th[t].pc.StoreCounter? { LastStaysFree(cfg, s, t, ch); } else { OnlyOwnerOpens(cfg, s, t); }
  }

  lemma OnlyOwnerOpens(cfg: Config, s: State, t: nat)
    requires Control(cfg, s) && t < cfg.threads && s.th[t].pc.StoreCounter?
    ensures t == 0
  {
    assert PcOk(cfg, t, s.th[t]);
  }

  /**
    As long as the last chunk is unclaimed, thieves find the pipeline: the owner's
    victim pointer stays up from when it is set until that chunk is claimed.
   */
  lemma {:induction false} VictimShown(cfg: Config, a: Args, v: Value, sched: Schedule)
    requires cfg.Sized() && Legal(cfg, sched)
    ensures var s := After(cfg, a, v, sched); Shape(cfg, s) && Shown(cfg, s)
  {
    hide Control, Step;
    EveryRunControlled(cfg, a, v, sched);
    ShapeOf(cfg, After(cfg, a, v, sched));
    if sched != [] {
      var last := |sched| - 1;
      VictimShown(cfg, a, v, sched[..last]);
      EveryRunControlled(cfg, a, v, sched[..last]);
      ShownKeeps(cfg, After(cfg, a, v, sched[..last]), sched[last].0, sched[last].1);
    }
  }
}
