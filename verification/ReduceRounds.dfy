/**
  The intra-process part of a reduce: every thread offers its source buffer, the
  computing threads fold all sources into the shared buffer chunk by chunk, one
  thread is elected leader, publishes, waits for the others and resets the channel
  for the next round.  Rounds follow each other without a barrier in between: a
  thread that is done may already offer its next source while others still work.
 */
module ReduceRounds {
  import opened Options

  /** How the leader is found: the root thread, or the ticket's compare-and-swap. */
  datatype Leadership = Root(thread: nat) | Ticket

  datatype Config = Config(threads: nat, computing: nat, leadership: Leadership) {
    predicate Ok() {
      threads >= 1 && computing <= threads && (leadership.Root? ==> leadership.thread < threads)
    }
  }

  /** A thread's source buffer of one round. */
  datatype Src = Src(thread: nat, round: nat)

  datatype PC =
    | Out                                            // before ReduceChannel::Reduce
    | WaitReady
    | CopyOwn | MarkOwn | Scan | Fold(j: nat, b: nat) | Mark(j: nat) | ChunkDone   // ReduceMyChunks
    | Elect | TryCas                                 // ElectProcessLeader
    | LWaitDone | LPublish | LWaitOthers             // leader
    | LConsumed | LClear | LInit | LDone | LOthers | LFlip
    | NWait | NClear | NConsumed | NInc              // everybody else

  /** Locals of one thread: thread_done, leader_ticket_num, thread_sense. */
  datatype Thread = Thread(pc: PC, done: set<nat>, ticket: nat, sense: bool)

  datatype State = State(
    ready: bool,                        // channel_ready_for_use
    numDone: nat,                       // num_threads_done
    others: nat,                        // num_non_leaders_totally_done
    ticket: nat,                        // process_leader_ticket_num
    buf: seq<Option<nat>>,              // ReduceChannel::buf, by the round of the offered source
    consumed: seq<nat>,                 // ReduceChannel::num_consumed
    acc: seq<seq<Src>>,                 // process_reduce_buf: the sources folded into each thread's chunk
    th: seq<Thread>,
    // history
    round: nat,                         // resets so far
    leaders: seq<nat>,                  // winners of the ticket
    published: seq<seq<seq<Src>>>)      // what each round's leader handed on

  function At(s: State, t: nat, pc: PC): State
    requires t < |s.th|
  {
    s.(th := s.th[t := s.th[t].(pc := pc)])
  }

  predicate AllIn(n: nat, done: set<nat>) { forall t: nat :: t < n ==> t in done }

  /** The end of ReduceBlocking: the thread-local ticket and sense move to the next round. */
  function Return(s: State, t: nat): State
    requires t < |s.th|
  {
    s.(th := s.th[t := Thread(Out, {}, s.th[t].ticket + 1, !s.th[t].sense)])
  }

  ghost predicate Shape(cfg: Config, s: State) {
    && cfg.Ok()
    && |s.th| == |s.buf| == |s.consumed| == |s.acc| == cfg.threads
  }

  /** ReduceMyChunks, ending in MarkChunkDone; `j` is the channel the scan looks at. */
  function WorkStep(cfg: Config, s: State, t: nat, j: nat): (s': State)
    requires Shape(cfg, s) && t < cfg.threads
    ensures Shape(cfg, s')
  {
    var me := s.th[t];
    match me.pc
    case CopyOwn => At(s.(acc := s.acc[t := [Src(t, me.ticket)]]), t, MarkOwn)
    case MarkOwn =>
      s.(consumed := s.consumed[t := s.consumed[t] + 1], th := s.th[t := me.(pc := Scan, done := {t})])
    case Scan =>
      if AllIn(cfg.threads, me.done) then At(s, t, ChunkDone)
      else if j < cfg.threads && j !in me.done && s.buf[j].Some? then At(s, t, Fold(j, s.buf[j].value))
      else s
    case Fold(i, b) => At(s.(acc := s.acc[t := s.acc[t] + [Src(i, b)]]), t, Mark(i))
    case Mark(i) =>
      if i < cfg.threads
      then s.(consumed := s.consumed[i := s.consumed[i] + 1], th := s.th[t := me.(pc := Scan, done := me.done + {i})])
      else s
    case ChunkDone => At(s.(numDone := s.numDone + 1), t, Elect)
    case _ => s
  }

  /** The leader's wait for all chunks, its hand-over, its wait for the others, and the reset. */
  function LeaderStep(cfg: Config, s: State, t: nat): (s': State)
    requires Shape(cfg, s) && t < cfg.threads
    ensures Shape(cfg, s')
  {
    match s.th[t].pc
    case LWaitDone => if s.numDone < cfg.threads then s else At(s, t, LPublish)
    case LPublish => At(s.(published := s.published + [s.acc]), t, LWaitOthers)
    case LWaitOthers => if s.others < cfg.threads - 1 then s else At(s, t, LConsumed)
    case LConsumed => At(s.(consumed := s.consumed[t := 0]), t, LClear)
    case LClear => At(s.(buf := s.buf[t := None]), t, LInit)
    case LInit => At(s.(acc := seq(cfg.threads, _ => [])), t, LDone)
    case LDone => At(s.(numDone := 0), t, LOthers)
    case LOthers => At(s.(others := 0), t, LFlip)
    case LFlip => Return(s.(ready := !s.ready, round := s.round + 1), t)
    case _ => s
  }

  /** NonLeaderFinalization: wait until the own source is used up, take it back, sign off. */
  function FollowerStep(cfg: Config, s: State, t: nat): (s': State)
    requires Shape(cfg, s) && t < cfg.threads
    ensures Shape(cfg, s')
  {
    match s.th[t].pc
    case NWait => if s.consumed[t] < cfg.computing then s else At(s, t, NClear)
    case NClear => At(s.(buf := s.buf[t := None]), t, NConsumed)
    case NConsumed => At(s.(consumed := s.consumed[t := 0]), t, NInc)
    case NInc => Return(s.(others := s.others + 1), t)
    case _ => s
  }

  /** ElectProcessLeader. */
  function ElectStep(cfg: Config, s: State, t: nat): (s': State)
    requires Shape(cfg, s) && t < cfg.threads
    ensures Shape(cfg, s')
  {
    var me := s.th[t];
    if me.pc.TryCas? then
      if s.ticket == me.ticket then At(s.(ticket := s.ticket + 1, leaders := s.leaders + [t]), t, LWaitDone)
      else At(s, t, NWait)
    else
      match cfg.leadership
      case Root(r) => At(s, t, if t == r then LWaitDone else NWait)
      case Ticket => At(s, t, if me.ticket == s.ticket then TryCas else NWait)
  }

  /** ReduceChannel::Reduce's store, and the wait for the previous round. */
  function EnterStep(cfg: Config, s: State, t: nat): (s': State)
    requires Shape(cfg, s) && t < cfg.threads
    ensures Shape(cfg, s')
  {
    var me := s.th[t];
    if me.pc.Out? then At(s.(buf := s.buf[t := Some(me.ticket)]), t, WaitReady)
    else if s.ready != me.sense then s
    else At(s, t, if t < cfg.computing then CopyOwn else ChunkDone)
  }

  predicate Leading(pc: PC) {
    pc.LWaitDone? || pc.LPublish? || pc.LWaitOthers? || pc.LConsumed? || Ending(pc)
  }

  /** A leader that has begun to reset the channel. */
  predicate Ending(pc: PC) { pc.LClear? || pc.LInit? || Cleared(pc) }

  /** A leader that has re-initialized the shared buffer. */
  predicate Cleared(pc: PC) { pc.LDone? || pc.LOthers? || pc.LFlip? }

  predicate Trailing(pc: PC) { pc.NWait? || pc.NClear? || pc.NConsumed? || pc.NInc? }

  /** Thread t's next atomic action; `j` is the channel its scan looks at. */
  function Step(cfg: Config, s: State, t: nat, j: nat): (s': State)
    requires Shape(cfg, s) && t < cfg.threads
    ensures Shape(cfg, s')
  {
    var pc := s.th[t].pc;
    if pc.Out? || pc.WaitReady? then EnterStep(cfg, s, t)
    else if pc.Elect? || pc.TryCas? then ElectStep(cfg, s, t)
    else if Leading(pc) then LeaderStep(cfg, s, t)
    else if Trailing(pc) then FollowerStep(cfg, s, t)
    else WorkStep(cfg, s, t, j)
  }

  function Init(cfg: Config): State {
    State(true, 0, 0, 0, seq(cfg.threads, _ => None), seq(cfg.threads, _ => 0), seq(cfg.threads, _ => []),
          seq(cfg.threads, _ => Thread(Out, {}, 0, true)), 0, [], [])
  }
}
