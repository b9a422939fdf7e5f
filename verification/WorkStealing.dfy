/**
  The work-stealing pipeline stage: one owner publishes the chunks of a
  collaborative stage through a shared counter, and the owner and any number of
  thieves claim chunks with fetch-and-add, run them, merge a local reduction with
  compare-and-swap and add to a done counter.  The counters are reused by every
  execution of the stage, and a thief that was descheduled inside an earlier
  execution may wake up in a later one.

  The machine below has one step per atomic action of the code.  `Step` is total
  and deterministic in (thread, choice), so "every run" is "every schedule".
 */
module WorkStealing {

  type Args(==, !new)     // what the continuation reads: buffer, count, extra parameters
  type Value(==, !new)    // what a returning continuation returns

  /** The two claim policies: PCV4_OPTION_WS_SINGLE_CHUNK and PCV4_OPTION_WS_GSS. */
  datatype Policy = SingleChunk | Guided(weight: nat)

  datatype Config = Config(
    threads: nat,                           // thread 0 owns the pipeline
    chunks: nat,                            // PCV_4_NUM_CONT_CHUNKS
    policy: Policy,
    returning: bool,                        // ReturningPureContinuation?
    cont: (Args, nat, nat) -> Value,        // the continuation on an inclusive chunk range
    reducer: (Value, Value) -> Value,
    init: Value)                            // reducer_init_val
  {
    ghost predicate Sized() { threads >= 1 && chunks >= 1 }

    /** WORK_AVAIL_INIT_CHUNK. */
    function Start(): int { if policy.SingleChunk? then -1 else 0 }

    /** A commutative monoid, and a continuation that returns the reduction of its range. */
    ghost predicate Lawful() {
      && (forall x, y :: reducer(x, y) == reducer(y, x))
      && (forall x, y, z :: reducer(reducer(x, y), z) == reducer(x, reducer(y, z)))
      && (forall x :: reducer(init, x) == x)
      && (forall a, i: nat, j: nat :: i < j ==> cont(a, i, j) == reducer(cont(a, j, j), cont(a, i, j - 1)))
    }
  }

  datatype PC =
    | Idle
    // owner, StartStealableWorkContinuation
    | StoreRet | StoreDone | StoreCounter | SetVictim | Enter
    | Waiting | Recheck | ClearOwn | Collect
    // anyone, ExecuteDequeueContinuationUntilDone
    | Snap | Claim(grab: nat) | Clear(lo: nat, hi: nat) | Run(lo: nat, hi: nat)
    | MergeLoad | MergeCas(seen: Value) | Report

  /** A thread's program counter and the locals of ExecuteDequeueContinuationUntilDone. */
  datatype Thread = Thread(pc: PC, count: nat, val: Value, until: bool)

  /** Where a chunk of the current execution is. */
  datatype Place = Free | Held(t: nat) | Ran(t: nat) | Reported

  datatype Range = Range(lo: nat, hi: nat)

  datatype State = State(
    args: Args,                    // recv_buf_ptr_for_collab_cont and companions
    counter: int,                  // dequeue_cont_curr_chunk
    done: nat,                     // active_stage_num_chunks_done
    ret: Value,                    // deq_pipeline_atomic_ret_v
    victim: bool,                  // pp_with_active_stealable_cont != nullptr
    th: seq<Thread>,
    // history
    where: seq<Place>,             // of the current execution, by chunk
    claims: seq<Range>,            // clipped ranges claimed in the current execution
    given: seq<Args>,              // arguments of each execution started
    ran: seq<seq<seq<Args>>>,      // ran[e][c]: what chunk c read each time it ran in execution e
    results: seq<Value>)           // what each finished execution returned

  /** What the environment decides: arguments, thief's loop flag, a spurious CAS failure. */
  datatype Choice = Choice(args: Args, until: bool, fail: bool)

  // ------------------------------------------------------------------ steps

  function CeilDiv(a: nat, b: nat): nat requires b > 0 { (a + b - 1) / b }

  /** The number of chunks a guided claim asks for, from a snapshot of the counter. */
  function Grab(cfg: Config, snapshot: int, owner: bool): nat
    requires cfg.threads > 0 && snapshot < cfg.chunks && 0 <= snapshot
  {
    var share := CeilDiv(cfg.chunks - snapshot, cfg.threads);
    var mine := if owner && cfg.policy.Guided? then share * cfg.policy.weight else share;
    if mine == 0 then 1 else mine
  }

  function At(s: State, t: nat, p: PC): State
    requires t < |s.th|
  {
    s.(th := s.th[t := s.th[t].(pc := p)])
  }

  /** Leaving ExecuteDequeueContinuationUntilDone: the owner waits, a thief goes away. */
  function Leave(s: State, t: nat): State
    requires t < |s.th|
  {
    s.(th := s.th[t := s.th[t].(pc := if t == 0 then Waiting else Idle, count := 0)])
  }

  /** The entry check and the locals' initialisation. */
  function EnterLoop(cfg: Config, s: State, t: nat, until: bool): State
    requires t < |s.th|
  {
    if s.counter >= cfg.chunks then Leave(s, t)
    else s.(th := s.th[t := Thread(LoopHead(cfg), 0, cfg.init, until)])
  }

  function LoopHead(cfg: Config): PC { if cfg.policy.SingleChunk? then Claim(1) else Snap }

  /** After the do/while loop. */
  function Finish(cfg: Config, s: State, t: nat): State
    requires t < |s.th|
  {
    if s.th[t].count == 0 then Leave(s, t)
    else if cfg.returning then At(s, t, MergeLoad)
    else At(s, t, Report)
  }

  function SnapStep(cfg: Config, s: State, t: nat): State
    requires t < |s.th| && cfg.threads > 0
  {
    if s.counter >= cfg.chunks then Finish(cfg, s, t)
    else if s.counter < 0 then s
    else At(s, t, Claim(Grab(cfg, s.counter, t == 0)))
  }

  /** The range a fetch-and-add of `grab` yields, before clipping. */
  function Claimed(cfg: Config, counter: int, grab: nat): (int, int) {
    match cfg.policy
    case SingleChunk => (counter + 1, counter + 1)
    case Guided(_) => var end := counter + grab - 1; (end - grab + 1, end)
  }

  function Mark(w: seq<Place>, lo: nat, hi: nat, p: Place): (w': seq<Place>) {
    seq(|w|, c requires 0 <= c < |w| => if lo <= c <= hi then p else w[c])
  }

  function ClaimStep(cfg: Config, s: State, t: nat, grab: nat): State
    requires t < |s.th|
  {
    var (lo, end) := Claimed(cfg, s.counter, grab);
    var last := cfg.chunks - 1;
    var s' := s.(counter := s.counter + grab);
    if 0 <= lo <= last && 0 <= end then
      var hi := if end > last then last else end;
      At(s'.(where := Mark(s.where, lo, hi, Held(t)), claims := s.claims + [Range(lo, hi)]), t,
         if hi == last then Clear(lo, hi) else Run(lo, hi))
    else
      Finish(cfg, s', t)
  }

  /** Chunks lo..hi read `a` in the latest execution. */
  function Record(ran: seq<seq<seq<Args>>>, lo: nat, hi: nat, a: Args): seq<seq<seq<Args>>> {
    if ran == [] then ran else
    var r := ran[|ran| - 1];
    ran[|ran| - 1 := seq(|r|, c requires 0 <= c < |r| => if lo <= c <= hi then r[c] + [a] else r[c])]
  }

  function RunStep(cfg: Config, s: State, t: nat, lo: nat, hi: nat): State
    requires t < |s.th| && lo <= hi
  {
    var me := s.th[t];
    var val := if cfg.returning then cfg.reducer(cfg.cont(s.args, lo, hi), me.val) else me.val;
    var s' := s.(where := Mark(s.where, lo, hi, Ran(t)),
                 ran := Record(s.ran, lo, hi, s.args),
                 th := s.th[t := me.(count := me.count + (hi - lo + 1), val := val)]);
    if hi == cfg.chunks - 1 || !me.until then Finish(cfg, s', t)
    else At(s', t, LoopHead(cfg))
  }

  /** compare_exchange_weak: may fail spuriously. */
  function MergeStep(cfg: Config, s: State, t: nat, seen: Value, fail: bool): State
    requires t < |s.th|
  {
    if s.ret == seen && !fail
    then At(s.(ret := cfg.reducer(s.th[t].val, seen)), t, Report)
    else At(s, t, MergeLoad)
  }

  function ReportStep(s: State, t: nat): State
    requires t < |s.th|
  {
    Leave(s.(done := s.done + s.th[t].count,
             where := seq(|s.where|, c requires 0 <= c < |s.where| =>
                                       if s.where[c] == Ran(t) then Reported else s.where[c])), t)
  }

  /** The store that opens an execution to thieves. */
  function OpenStep(cfg: Config, s: State): State
    requires |s.th| > 0
  {
    At(s.(counter := cfg.Start(),
          where := seq(|s.where|, _ => Free),
          claims := [],
          given := s.given + [s.args],
          ran := s.ran + [seq(|s.where|, _ => [])]), 0, SetVictim)
  }

  function Step(cfg: Config, s: State, t: nat, ch: Choice): (s': State)
    requires cfg.Sized() && t < |s.th|
    ensures |s'.th| == |s.th|
  {
    match s.th[t].pc
    case Idle => if t == 0 then At(s.(args := ch.args), 0, StoreRet) else EnterLoop(cfg, s, t, ch.until)
    case StoreRet => At(if cfg.returning then s.(ret := cfg.init) else s, t, StoreDone)
    case StoreDone => At(s.(done := 0), t, StoreCounter)
    case StoreCounter => OpenStep(cfg, s)
    case SetVictim => At(s.(victim := true), t, Enter)
    case Enter => EnterLoop(cfg, s, t, true)
    case Waiting => if s.done >= cfg.chunks then At(s, t, Recheck) else s
    case Recheck => At(s, t, if s.victim then ClearOwn else Collect)
    case ClearOwn => At(s.(victim := false), t, Collect)
    case Collect => At(s.(results := s.results + [s.ret]), t, Idle)
    case Snap => SnapStep(cfg, s, t)
    case Claim(g) => ClaimStep(cfg, s, t, g)
    case Clear(lo, hi) => At(s.(victim := false), t, Run(lo, hi))
    case Run(lo, hi) => if lo <= hi then RunStep(cfg, s, t, lo, hi) else s
    case MergeLoad => At(s, t, MergeCas(s.ret))
    case MergeCas(seen) => MergeStep(cfg, s, t, seen, ch.fail)
    case Report => ReportStep(s, t)
  }

  /** After construction: the counter is at its maximum so that nobody steals. */
  function Init(cfg: Config, a: Args, v: Value): State {
    State(a, cfg.chunks, 0, v, false,
          seq(cfg.threads, _ => Thread(Idle, 0, v, true)),
          seq(cfg.chunks, _ => Reported), [], [], [], [])
  }
}
