/** The collaboration never gets stuck: from every reachable state any number of messages can be executed. */
module SenderReceiverCollabProgress {
  import opened Counting
  import opened SenderReceiverCollab
  import opened SenderReceiverCollabRuns

  /** The sender's place in its message, and the receiver's. */
  function SenderRank(pc: SPc): nat {
    match pc
    case SOut => 0
    case SReady(i) => 1 + 5 * i
    case SStage(i) => 2 + 5 * i
    case SWork(i, _) => 3 + 5 * i
    case SClear(i) => 4 + 5 * i
    case SDone(i) => 5 + 5 * i
  }

  function ReceiverRank(pc: RPc): nat {
    match pc
    case ROut => 0
    case RStage(j) => 1 + 6 * j
    case RReady(j) => 2 + 6 * j
    case RWork(j) => 3 + 6 * j
    case RWait(j, _) => 4 + 6 * j
    case RReset(j, _) => 5 + 6 * j
    case RCombine(j, _) => 6 + 6 * j
  }

  function SenderSpan(cfg: Config): nat { 5 * cfg.NumCollabStages() + 6 }

  function ReceiverSpan(cfg: Config): nat { 6 * |cfg.stages| + 8 }

  /** Their places in all messages: every action that changes its party's place takes it further. */
  function SenderPosition(cfg: Config, s: State): nat { s.helped * SenderSpan(cfg) + SenderRank(s.sender) }

  function ReceiverPosition(cfg: Config, s: State): nat { s.executed * ReceiverSpan(cfg) + ReceiverRank(s.receiver) }

  /** What is left of m messages; the sender is at most one message ahead. */
  function ToGo(cfg: Config, s: State, m: nat): nat {
    var x, y := (m + 1) * SenderSpan(cfg), m * ReceiverSpan(cfg);
    (if SenderPosition(cfg, s) <= x then x - SenderPosition(cfg, s) else 0) +
    (if ReceiverPosition(cfg, s) <= y then y - ReceiverPosition(cfg, s) else 0)
  }

  /** Either a later place in the same message, or the end of it. */
  predicate Later(n: nat, rank: nat, n': nat, rank': nat) { (n' == n && rank' > rank) || n' == n + 1 }

  lemma LaterIsFurther(n: nat, rank: nat, n': nat, rank': nat, span: nat)
    requires Later(n, rank, n', rank') && rank < span
    ensures n' * span + rank' > n * span + rank
  {
    if n' == n + 1 { assert (n + 1) * span == n * span + span; }
  }

  lemma SenderAdvances(cfg: Config, s: State)
    requires PlacesOk(cfg, s) && SenderStep(cfg, s).sender != s.sender
    ensures var s' := SenderStep(cfg, s);
            && Later(s.helped, SenderRank(s.sender), s'.helped, SenderRank(s'.sender))
            && SenderRank(s.sender) < SenderSpan(cfg)
            && s'.executed == s.executed && s'.receiver == s.receiver
  {
    hide InStep;
  }

  lemma ReceiverAdvances(cfg: Config, s: State)
    requires PlacesOk(cfg, s) && ReceiverStep(cfg, s).receiver != s.receiver
    ensures var s' := ReceiverStep(cfg, s);
            && Later(s.executed, ReceiverRank(s.receiver), s'.executed, ReceiverRank(s'.receiver))
            && ReceiverRank(s.receiver) < ReceiverSpan(cfg)
            && s'.helped == s.helped && s'.sender == s.sender
  {
    hide InStep;
  }

  lemma Nearer(cfg: Config, s: State, sends: bool, m: nat)
    requires Inv(cfg, s) && s.executed < m
    requires if sends then SenderStep(cfg, s).sender != s.sender else ReceiverStep(cfg, s).receiver != s.receiver
    ensures ToGo(cfg, Step(cfg, s, sends), m) < ToGo(cfg, s, m)
  {
    Ahead(cfg, s);
    PlacesOf(cfg, s);
    hide Inv, Later, SenderStep, ReceiverStep, SenderSpan, ReceiverSpan, SenderRank, ReceiverRank, PlacesOk;
    var s' := Step(cfg, s, sends);
    if sends {
      SenderAdvances(cfg, s);
      LaterIsFurther(s.helped, SenderRank(s.sender), s'.helped, SenderRank(s'.sender), SenderSpan(cfg));
      WithinCalls(s.helped, m, SenderSpan(cfg), SenderRank(s.sender));
    } else {
      ReceiverAdvances(cfg, s);
      LaterIsFurther(s.executed, ReceiverRank(s.receiver), s'.executed, ReceiverRank(s'.receiver), ReceiverSpan(cfg));
      WithinCalls(s.executed, m - 1, ReceiverSpan(cfg), ReceiverRank(s.receiver));
    }
  }

  lemma Ahead(cfg: Config, s: State)
    requires Inv(cfg, s)
    ensures s.helped <= s.executed + 1
  {
    hide FlagsOk, HistoryOk, ValuesOk;
  }

  lemma PlacesOf(cfg: Config, s: State)
    requires Inv(cfg, s)
    ensures PlacesOk(cfg, s)
  {
  }

  lemma Then(cfg: Config, v: Value, sched: Schedule, sends: bool)
    ensures After(cfg, v, sched + [sends]) == Step(cfg, After(cfg, v, sched), sends)
  {
    assert (sched + [sends])[..|sched|] == sched;
  }

  /** From every reachable state and for every m, the two parties can go on until m messages have been executed. */
  lemma {:induction false} MessagesComplete(cfg: Config, v: Value, sched: Schedule, m: nat) returns (more: Schedule)
    requires cfg.NumCollabStages() >= 1
    ensures After(cfg, v, sched + more).executed >= m
    decreases ToGo(cfg, After(cfg, v, sched), m)
  {
    hide Inv, SenderStep, ReceiverStep, After, ToGo;
    var s := After(cfg, v, sched);
    if s.executed < m {
      EveryRun(cfg, v, sched);
      NeverBothStuck(cfg, v, sched);
      var sends := SenderStep(cfg, s).sender != s.sender;
      Nearer(cfg, s, sends, m);
      Then(cfg, v, sched, sends);
      more := MessagesComplete(cfg, v, sched + [sends], m);
      assert sched + [sends] + more == sched + ([sends] + more);
      more := [sends] + more;
    } else {
      more := [];
      assert sched + more == sched;
    }
  }
}
