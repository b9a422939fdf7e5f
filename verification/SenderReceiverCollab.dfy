/**
  A message's pipeline run by its receiver, with the sender doing the second half of
  every collaborative stage.  The two meet through two flags; the stage to work on and
  the message are plain shared data.
 */
module SenderReceiverCollab {

  type Value(==, !new)

  /** A stage: done by both or by the receiver alone; its results reduced to one or dropped. */
  datatype Stage = Stage(collab: bool, reduces: bool)

  datatype Config = Config(
    stages: seq<Stage>,
    full: (nat, nat) -> Value,              // the whole of a stage on a message
    half: (nat, nat, nat) -> Value,         // one chunk of a stage on a message
    reducer: (nat, Value, Value) -> Value,
    nothing: Value)
  {
    /** The collaborative stages, in order. */
    function Collabs(n: nat): (c: seq<nat>)
      requires n <= |stages|
      ensures forall i :: 0 <= i < |c| ==> c[i] < n && stages[c[i]].collab
    {
      if n == 0 then [] else Collabs(n - 1) + if stages[n - 1].collab then [n - 1] else []
    }

    function NumCollabStages(): nat { |Collabs(|stages|)| }

    /** What stage j of message m must return. */
    function Expected(m: nat, j: nat): Value
      requires j < |stages|
    {
      if !stages[j].collab then full(m, j)
      else if stages[j].reduces then reducer(j, half(m, j, 1), half(m, j, 0))
      else nothing
    }
  }

  datatype SPc =
    | SOut                                          // between EnqueueWaits
    | SReady(i: nat) | SStage(i: nat) | SWork(i: nat, stage: nat) | SClear(i: nat) | SDone(i: nat)

  datatype RPc =
    | ROut
    | RStage(j: nat) | RReady(j: nat) | RWork(j: nat)
    | RWait(j: nat, v: Value) | RReset(j: nat, v: Value) | RCombine(j: nat, v: Value)

  datatype State = State(
    active: int,            // active_pipeline_stage
    message: nat,           // recv_buf_ptr_for_collab_cont
    workReady: bool,        // collab_work_ready_for_sender
    workDone: bool,         // sender_done_cont_work
    senderRet: Value,       // sender_cont_work_ret_v
    sender: SPc, receiver: RPc,
    sent: nat, helped: nat, executed: nat,        // messages sent, helped with, executed
    current: seq<Value>,                          // stage_ret_vals of the message being executed
    // history
    senderHalves: seq<(nat, nat)>, receiverHalves: seq<(nat, nat)>, results: seq<seq<Value>>)

  /** EnqueueWait: the message is sent, then MaybeHelpReceiverWithContinuation. */
  function SenderStep(cfg: Config, s: State): State {
    match s.sender
    case SOut => s.(sent := s.sent + 1, sender := SReady(0))
    case SReady(i) => if s.workReady then s.(sender := SStage(i)) else s
    case SStage(i) => if 0 <= s.active < |cfg.stages| then s.(sender := SWork(i, s.active)) else s
    case SWork(i, stage) =>
      s.(senderRet := cfg.half(s.message, stage, 1), senderHalves := s.senderHalves + [(s.message, stage)],
         sender := SClear(i))
    case SClear(i) => s.(workReady := false, sender := SDone(i))
    case SDone(i) =>
      if i + 1 < cfg.NumCollabStages() then s.(workDone := true, sender := SReady(i + 1))
      else s.(workDone := true, helped := s.helped + 1, sender := SOut)
  }

  /** ExecutePCPipeline, with StartSenderRecieverCollabContinuation for a collaborative stage. */
  function ReceiverStep(cfg: Config, s: State): State {
    match s.receiver
    case ROut =>
      if s.executed < s.sent then s.(message := s.executed, current := [], receiver := RStage(0)) else s
    case RStage(j) =>
      if j >= |cfg.stages| then s.(results := s.results + [s.current], executed := s.executed + 1, receiver := ROut)
      else if cfg.stages[j].collab then s.(active := j, receiver := RReady(j))
      else s.(current := s.current + [cfg.full(s.message, j)], receiver := RStage(j + 1))
    case RReady(j) => s.(workReady := true, receiver := RWork(j))
    case RWork(j) =>
      s.(receiverHalves := s.receiverHalves + [(s.message, j)], receiver := RWait(j, cfg.half(s.message, j, 0)))
    case RWait(j, v) => if s.workDone then s.(receiver := RReset(j, v)) else s
    case RReset(j, v) => s.(workDone := false, receiver := RCombine(j, v))
    case RCombine(j, v) =>
      var r := if j < |cfg.stages| && cfg.stages[j].reduces then cfg.reducer(j, s.senderRet, v) else cfg.nothing;
      s.(current := s.current + [r], receiver := RStage(j + 1))
  }

  function Step(cfg: Config, s: State, sends: bool): State {
    if sends then SenderStep(cfg, s) else ReceiverStep(cfg, s)
  }

  function Init(v: Value): State {
    State(-1, 0, false, false, v, SOut, ROut, 0, 0, 0, [], [], [], [])
  }

  // ------------------------------------------------------------------ the invariant

  /** The halves due up to collaborative stage i of message m, every earlier message complete. */
  function Due(cfg: Config, m: nat, i: nat): (h: seq<(nat, nat)>)
    decreases m, i
  {
    var c := cfg.Collabs(|cfg.stages|);
    if 0 < i <= |c| then Due(cfg, m, i - 1) + [(m, c[i - 1])]
    else if m > 0 then Due(cfg, m - 1, |c|)
    else []
  }

  /** How many collaborative stages of the current message the sender has finished. */
  function SenderAt(pc: SPc): nat { if pc.SOut? then 0 else pc.i }

  function StageOf(pc: RPc): nat { if pc.ROut? then 0 else pc.j }

  predicate InCollab(pc: RPc) { pc.RReady? || pc.RWork? || pc.RWait? || pc.RReset? || pc.RCombine? }

  /** How many collaborative stages of the current message come before the receiver's place. */
  function ReceiverAt(cfg: Config, pc: RPc): nat {
    if StageOf(pc) <= |cfg.stages| then |cfg.Collabs(StageOf(pc))| else 0
  }

  /** The sender has finished the same collaborative stages, or one more. */
  predicate InStep(k: nat, helped: nat, i: nat, executed: nat, c: nat) {
    (helped == executed && i == c) || (helped == executed + 1 && i == 0 && c == k)
  }

  /** How far the stage in progress has got. */
  datatype Phase = Apart | Offered | Claimed | Finished

  function PhaseOf(s: State): Phase {
    if s.workDone then Finished
    else if s.receiver.RCombine? then Finished
    else if s.workReady then Offered
    else if s.sender.SDone? then Claimed
    else Apart
  }

  predicate PlacesOk(cfg: Config, s: State) {
    var k := cfg.NumCollabStages();
    && k >= 1
    && s.sent == s.helped + (if s.sender.SOut? then 0 else 1)
    && SenderAt(s.sender) < k
    && StageOf(s.receiver) <= |cfg.stages|
    && (InCollab(s.receiver) ==> s.receiver.j < |cfg.stages| && cfg.stages[s.receiver.j].collab && s.active == s.receiver.j)
    && (!s.receiver.ROut? ==> s.message == s.executed < s.sent)
    && InStep(k, s.helped, SenderAt(s.sender), s.executed,
              ReceiverAt(cfg, s.receiver) + if PhaseOf(s).Finished? then 1 else 0)
  }

  /** The flags tell both parties' places in a collaborative stage. */
  predicate FlagsOk(cfg: Config, s: State) {
    && (s.workReady ==> (s.receiver.RWork? || s.receiver.RWait?) && !s.workDone)
    && (s.workDone ==> s.receiver.RWork? || s.receiver.RWait? || s.receiver.RReset?)
    && (s.receiver.RReset? ==> s.workDone)
    && ((s.receiver.RWork? || s.receiver.RWait?) && !s.workDone && !s.workReady ==> s.sender.SDone?)
    && (s.sender.SStage? || s.sender.SWork? || s.sender.SClear? ==> s.workReady)
    && (s.sender.SDone? ==> !s.workReady && !s.workDone && (s.receiver.RWork? || s.receiver.RWait?))
    && (s.sender.SWork? ==> s.sender.stage == s.active)
  }

  predicate HistoryOk(cfg: Config, s: State) {
    && s.senderHalves == Due(cfg, s.helped, SenderAt(s.sender) + if s.sender.SClear? || s.sender.SDone? then 1 else 0)
    && s.receiverHalves == Due(cfg, s.executed, ReceiverAt(cfg, s.receiver) +
                               if HasOwn(s.receiver) then 1 else 0)
  }

  /** The receiver has done its half of the stage in progress. */
  predicate HasOwn(pc: RPc) { pc.RWait? || pc.RReset? || pc.RCombine? }

  predicate ValuesOk(cfg: Config, s: State) {
    && (s.sender.SClear? || s.sender.SDone? || PhaseOf(s).Finished? ==>
          InCollab(s.receiver) && s.senderRet == cfg.half(s.message, s.receiver.j, 1))
    && (HasOwn(s.receiver) ==> s.receiver.v == cfg.half(s.message, s.receiver.j, 0))
    && (!s.receiver.ROut? ==> StageOf(s.receiver) <= |cfg.stages| && RightSoFar(cfg, s.executed, StageOf(s.receiver), s.current))
    && |s.results| == s.executed
    && forall m :: 0 <= m < |s.results| ==> RightSoFar(cfg, m, |cfg.stages|, s.results[m])
  }

  /** The first n stages of message m returned what they must. */
  predicate RightSoFar(cfg: Config, m: nat, n: nat, r: seq<Value>)
    requires n <= |cfg.stages|
  {
    |r| == n && forall j :: 0 <= j < n ==> r[j] == cfg.Expected(m, j)
  }

  predicate Inv(cfg: Config, s: State) {
    PlacesOk(cfg, s) && FlagsOk(cfg, s) && HistoryOk(cfg, s) && ValuesOk(cfg, s)
  }

  lemma {:induction false} CollabsGrow(cfg: Config, m: nat, n: nat)
    requires m <= n <= |cfg.stages|
    ensures |cfg.Collabs(m)| <= |cfg.Collabs(n)| && cfg.Collabs(m) == cfg.Collabs(n)[..|cfg.Collabs(m)|]
    ensures m < n && cfg.stages[m].collab ==>
              |cfg.Collabs(m)| < |cfg.Collabs(n)| && cfg.Collabs(n)[|cfg.Collabs(m)|] == m
  {
    if m < n { CollabsGrow(cfg, m, n - 1); }
  }

  /** The receiver's stage is the collaborative one next due. */
  lemma StageIsDue(cfg: Config, s: State)
    requires PlacesOk(cfg, s) && InCollab(s.receiver)
    ensures var c := cfg.Collabs(|cfg.stages|);
            ReceiverAt(cfg, s.receiver) < |c| && c[ReceiverAt(cfg, s.receiver)] == s.receiver.j
  {
    CollabsGrow(cfg, s.receiver.j, |cfg.stages|);
  }

  lemma InitInv(cfg: Config, v: Value)
    requires cfg.NumCollabStages() >= 1
    ensures Inv(cfg, Init(v))
  {
  }

  lemma SenderPlaces(cfg: Config, s: State)
    requires PlacesOk(cfg, s) && FlagsOk(cfg, s)
    ensures var s' := SenderStep(cfg, s); PlacesOk(cfg, s') && FlagsOk(cfg, s')
  {
    if InCollab(s.receiver) { StageIsDue(cfg, s); }
  }

  lemma SenderHistory(cfg: Config, s: State)
    requires Inv(cfg, s)
    ensures var s' := SenderStep(cfg, s); HistoryOk(cfg, s') && ValuesOk(cfg, s')
  {
    if s.sender.SWork? {
      SenderWorks(cfg, s);
    } else if s.sender.SDone? {
      SenderFinishes(cfg, s);
    } else {
      SenderMoves(cfg, s);
    }
  }

  lemma SenderMoves(cfg: Config, s: State)
    requires Inv(cfg, s) && !s.sender.SWork? && !s.sender.SDone?
    ensures var s' := SenderStep(cfg, s); HistoryOk(cfg, s') && ValuesOk(cfg, s')
  {
    hide Due, RightSoFar;
  }

  lemma SenderFinishes(cfg: Config, s: State)
    requires Inv(cfg, s) && s.sender.SDone?
    ensures var s' := SenderStep(cfg, s); HistoryOk(cfg, s') && ValuesOk(cfg, s')
  {
    hide RightSoFar;
  }

  lemma SenderWorks(cfg: Config, s: State)
    requires Inv(cfg, s) && s.sender.SWork?
    ensures var s' := SenderStep(cfg, s); HistoryOk(cfg, s') && ValuesOk(cfg, s')
  {
    hide RightSoFar;
    StageIsDue(cfg, s);
  }

  lemma SenderKeeps(cfg: Config, s: State)
    requires Inv(cfg, s)
    ensures Inv(cfg, SenderStep(cfg, s))
  {
    hide PlacesOk, FlagsOk, HistoryOk, ValuesOk;
    SenderPlaces(cfg, s);
    SenderHistory(cfg, s);
  }

  lemma ReceiverPlaces(cfg: Config, s: State)
    requires PlacesOk(cfg, s) && FlagsOk(cfg, s)
    ensures var s' := ReceiverStep(cfg, s); PlacesOk(cfg, s') && FlagsOk(cfg, s')
  {
    if InCollab(s.receiver) { StageIsDue(cfg, s); }
  }

  lemma ReceiverHistory(cfg: Config, s: State)
    requires Inv(cfg, s)
    ensures HistoryOk(cfg, ReceiverStep(cfg, s))
  {
    hide RightSoFar, ValuesOk, FlagsOk, PlacesOk, HistoryOk, ReceiverStep;
    if s.receiver.RWork? {
      ReceiverWorks(cfg, s);
    } else if s.receiver.RCombine? {
      ReceiverCombines(cfg, s);
    } else {
      ReceiverBetween(cfg, s);
    }
  }

  /** The receiver's half is the next one due. */
  lemma ReceiverWorks(cfg: Config, s: State)
    requires PlacesOk(cfg, s) && HistoryOk(cfg, s) && s.receiver.RWork?
    ensures HistoryOk(cfg, ReceiverStep(cfg, s))
  {
    StageIsDue(cfg, s);
    hide InStep;
  }

  lemma ReceiverCombines(cfg: Config, s: State)
    requires PlacesOk(cfg, s) && HistoryOk(cfg, s) && s.receiver.RCombine?
    ensures HistoryOk(cfg, ReceiverStep(cfg, s))
  {
    hide Due, InStep;
    assert |cfg.Collabs(s.receiver.j + 1)| == |cfg.Collabs(s.receiver.j)| + 1;
  }

  lemma ReceiverBetween(cfg: Config, s: State)
    requires PlacesOk(cfg, s) && HistoryOk(cfg, s) && !s.receiver.RWork? && !s.receiver.RCombine?
    ensures HistoryOk(cfg, ReceiverStep(cfg, s))
  {
    hide InStep, Due;
    if s.receiver.RStage? && s.receiver.j >= |cfg.stages| { NextMessage(cfg, s.executed); }
  }

  /** Nothing more is due at the start of a message than at the end of the one before. */
  lemma NextMessage(cfg: Config, m: nat)
    ensures Due(cfg, m + 1, 0) == Due(cfg, m, |cfg.Collabs(|cfg.stages|)|)
  {
  }

  lemma ReceiverValues(cfg: Config, s: State)
    requires Inv(cfg, s)
    ensures ValuesOk(cfg, ReceiverStep(cfg, s))
  {
    hide HistoryOk;
  }

  lemma ReceiverKeeps(cfg: Config, s: State)
    requires Inv(cfg, s)
    ensures Inv(cfg, ReceiverStep(cfg, s))
  {
    hide PlacesOk, FlagsOk, HistoryOk, ValuesOk;
    ReceiverPlaces(cfg, s);
    ReceiverHistory(cfg, s);
    ReceiverValues(cfg, s);
  }
}

/** What the collaboration promises for any sequence of messages and any stages. */
module SenderReceiverCollabRuns {
  import opened SenderReceiverCollab

  /** Who moves: the sender, or else the receiver. */
  type Schedule = seq<bool>

  ghost function After(cfg: Config, v: Value, sched: Schedule): State {
    if sched == [] then Init(v) else Step(cfg, After(cfg, v, sched[..|sched| - 1]), sched[|sched| - 1])
  }

  lemma {:induction false} EveryRun(cfg: Config, v: Value, sched: Schedule)
    requires cfg.NumCollabStages() >= 1
    ensures Inv(cfg, After(cfg, v, sched))
  {
    hide Inv, SenderStep, ReceiverStep, Init;
    if sched == [] {
      InitInv(cfg, v);
    } else {
      var before := sched[..|sched| - 1];
      EveryRun(cfg, v, before);
      SenderKeeps(cfg, After(cfg, v, before));
      ReceiverKeeps(cfg, After(cfg, v, before));
    }
  }

  /** Every executed message's results are right, stage by stage: its own two halves reduced. */
  lemma {:induction false} ResultsRight(cfg: Config, v: Value, sched: Schedule, m: nat, j: nat)
    requires cfg.NumCollabStages() >= 1 && m < |After(cfg, v, sched).results| && j < |cfg.stages|
    ensures var s := After(cfg, v, sched);
            && |s.results| == s.executed <= s.sent
            && |s.results[m]| == |cfg.stages|
            && s.results[m][j] == cfg.Expected(m, j)
  {
    EveryRun(cfg, v, sched);
    var s := After(cfg, v, sched);
    assert RightSoFar(cfg, m, |cfg.stages|, s.results[m]);
  }

  lemma {:induction false} DueLength(cfg: Config, m: nat, i: nat)
    requires i <= cfg.NumCollabStages()
    ensures |Due(cfg, m, i)| == m * cfg.NumCollabStages() + i
    decreases m, i
  {
    var k := cfg.NumCollabStages();
    if i > 0 {
      DueLength(cfg, m, i - 1);
    } else if m > 0 {
      DueLength(cfg, m - 1, k);
      assert m * k == (m - 1) * k + k;
    }
  }

  /** Each collaborative stage is listed once, and no other. */
  lemma {:induction false} CollabsOnce(cfg: Config, n: nat, j: nat)
    requires n <= |cfg.stages|
    ensures j in cfg.Collabs(n) <==> j < n && cfg.stages[j].collab
    ensures forall x, y :: 0 <= x < y < |cfg.Collabs(n)| ==> cfg.Collabs(n)[x] != cfg.Collabs(n)[y]
  {
    if n > 0 { CollabsOnce(cfg, n - 1, j); }
  }

  /** A half is due once if its stage is collaborative and its message complete or far enough, and otherwise never. */
  lemma {:induction false} DueOnce(cfg: Config, m: nat, i: nat, q: nat, j: nat)
    requires i <= cfg.NumCollabStages()
    ensures var c := cfg.Collabs(|cfg.stages|);
            multiset(Due(cfg, m, i))[(q, j)] == if (q < m && j in c) || (q == m && j in c[..i]) then 1 else 0
    decreases m, i
  {
    hide Due, cfg.Collabs;
    var c := cfg.Collabs(|cfg.stages|);
    DueBefore(cfg, m, i);
    if i > 0 {
      DueOnce(cfg, m, i - 1, q, j);
      CollabsOnce(cfg, |cfg.stages|, j);
      NextOne(c, i, j);
      OneMoreTime(Due(cfg, m, i - 1), (m, c[i - 1]), (q, j));
    } else if m > 0 {
      DueOnce(cfg, m - 1, |c|, q, j);
      assert c[..|c|] == c;
    }
  }

  lemma DueBefore(cfg: Config, m: nat, i: nat)
    requires i <= cfg.NumCollabStages()
    ensures var c := cfg.Collabs(|cfg.stages|);
            Due(cfg, m, i) == if i > 0 then Due(cfg, m, i - 1) + [(m, c[i - 1])]
                              else if m > 0 then Due(cfg, m - 1, |c|) else []
  {
  }

  lemma OneMoreTime(h: seq<(nat, nat)>, x: (nat, nat), p: (nat, nat))
    ensures multiset(h + [x])[p] == multiset(h)[p] + if p == x then 1 else 0
  {
  }

  lemma NextOne(c: seq<nat>, i: nat, j: nat)
    requires 0 < i <= |c| && forall x, y :: 0 <= x < y < |c| ==> c[x] != c[y]
    ensures j in c[..i] <==> j in c[..i - 1] || j == c[i - 1]
    ensures j == c[i - 1] ==> j !in c[..i - 1]
  {
    assert c[..i] == c[..i - 1] + [c[i - 1]];
  }

  /**
    In every run no half is done twice by either party; both halves of every collaborative
    stage of every executed message are done exactly once, and no half of any other stage
    or of a message not yet sent.
   */
  lemma {:induction false} HalvesOnce(cfg: Config, v: Value, sched: Schedule, q: nat, j: nat)
    requires cfg.NumCollabStages() >= 1
    ensures var s := After(cfg, v, sched);
            var collab := j < |cfg.stages| && cfg.stages[j].collab;
            var byS, byR := multiset(s.senderHalves)[(q, j)], multiset(s.receiverHalves)[(q, j)];
            && byS <= 1 && byR <= 1
            && (collab && q < s.executed ==> byS == byR == 1)
            && (!collab || q >= s.sent ==> byS == byR == 0)
  {
    EveryRun(cfg, v, sched);
    hide Inv, After;
    SenderOnce(cfg, After(cfg, v, sched), q, j);
    ReceiverOnce(cfg, After(cfg, v, sched), q, j);
  }

  lemma SenderOnce(cfg: Config, s: State, q: nat, j: nat)
    requires Inv(cfg, s)
    ensures var collab := j < |cfg.stages| && cfg.stages[j].collab;
            var times := multiset(s.senderHalves)[(q, j)];
            && times <= 1 && (collab && q < s.executed ==> times == 1) && (!collab || q >= s.sent ==> times == 0)
  {
    hide Due, FlagsOk, ValuesOk;
    var i := SenderAt(s.sender) + if s.sender.SClear? || s.sender.SDone? then 1 else 0;
    CollabsOnce(cfg, |cfg.stages|, j);
    DueOnce(cfg, s.helped, i, q, j);
    InFront(cfg.Collabs(|cfg.stages|), i, j);
  }

  lemma ReceiverOnce(cfg: Config, s: State, q: nat, j: nat)
    requires Inv(cfg, s)
    ensures var collab := j < |cfg.stages| && cfg.stages[j].collab;
            var times := multiset(s.receiverHalves)[(q, j)];
            && times <= 1 && (collab && q < s.executed ==> times == 1) && (!collab || q >= s.sent ==> times == 0)
  {
    hide Due, FlagsOk, ValuesOk;
    var i := ReceiverAt(cfg, s.receiver) + if HasOwn(s.receiver) then 1 else 0;
    if InCollab(s.receiver) { StageIsDue(cfg, s); }
    CollabsGrow(cfg, StageOf(s.receiver), |cfg.stages|);
    CollabsOnce(cfg, |cfg.stages|, j);
    DueOnce(cfg, s.executed, i, q, j);
    InFront(cfg.Collabs(|cfg.stages|), i, j);
  }

  lemma InFront(c: seq<nat>, i: nat, j: nat)
    requires i <= |c|
    ensures j in c[..i] ==> j in c
  {
  }

  /** Between messages both parties have done the same halves, in the same order. */
  lemma {:induction false} HalvesAgree(cfg: Config, v: Value, sched: Schedule)
    requires cfg.NumCollabStages() >= 1
    requires var s := After(cfg, v, sched); s.sender.SOut? && s.receiver.ROut?
    ensures var s := After(cfg, v, sched);
            && s.senderHalves == s.receiverHalves
            && s.helped == s.executed == s.sent
            && |s.senderHalves| == s.executed * cfg.NumCollabStages()
  {
    EveryRun(cfg, v, sched);
    DueLength(cfg, After(cfg, v, sched).executed, 0);
  }

  /** While the sender works on a stage, it is the receiver's current one, of the same message. */
  lemma {:induction false} SameStage(cfg: Config, v: Value, sched: Schedule)
    requires cfg.NumCollabStages() >= 1
    ensures var s := After(cfg, v, sched);
            && (s.sender.SWork? ==> InCollab(s.receiver) && s.sender.stage == s.active == s.receiver.j
                                    && s.message == s.executed == s.helped)
            && (s.sender.SStage? ==> InCollab(s.receiver) && s.active == s.receiver.j)
  {
    EveryRun(cfg, v, sched);
    var s := After(cfg, v, sched);
    if InCollab(s.receiver) { StageIsDue(cfg, s); }
  }

  /** Neither the sender's wait for work nor the receiver's for the sender can leave both stuck. */
  lemma {:induction false} NeverBothStuck(cfg: Config, v: Value, sched: Schedule)
    requires cfg.NumCollabStages() >= 1
    ensures var s := After(cfg, v, sched);
            SenderStep(cfg, s).sender != s.sender || ReceiverStep(cfg, s).receiver != s.receiver
  {
    EveryRun(cfg, v, sched);
    var s := After(cfg, v, sched);
    if InCollab(s.receiver) { StageIsDue(cfg, s); }
  }
}

/** The pipeline's shared fields, updated in place, one action a call. */
module CollabPipelineObject {
  import opened SenderReceiverCollab
  import opened SenderReceiverCollabRuns

  class PurePipeline {
    const cfg: Config
    var active_pipeline_stage: int
    var recv_buf_ptr_for_collab_cont: nat
    var collab_work_ready_for_sender: bool
    var sender_done_cont_work: bool
    var sender_cont_work_ret_v: Value
    var stage_ret_vals: seq<Value>

    // the two parties' places and message counts
    var sender: SPc
    var receiver: RPc
    var sent: nat
    var helped: nat
    var executed: nat

    // history
    ghost var senderHalves: seq<(nat, nat)>
    ghost var receiverHalves: seq<(nat, nat)>
    ghost var results: seq<seq<Value>>

    ghost function View(): State
      reads this
    {
      State(active_pipeline_stage, recv_buf_ptr_for_collab_cont, collab_work_ready_for_sender, sender_done_cont_work,
            sender_cont_work_ret_v, sender, receiver, sent, helped, executed, stage_ret_vals,
            senderHalves, receiverHalves, results)
    }

    ghost predicate Valid()
      reads this
    {
      Inv(cfg, View())
    }

    constructor (cfg: Config, v: Value)
      requires cfg.NumCollabStages() >= 1
      ensures this.cfg == cfg && Valid() && View() == Init(v)
    {
      this.cfg := cfg;
      active_pipeline_stage, recv_buf_ptr_for_collab_cont := -1, 0;
      collab_work_ready_for_sender, sender_done_cont_work, sender_cont_work_ret_v := false, false, v;
      stage_ret_vals, sender, receiver := [], SOut, ROut;
      sent, helped, executed := 0, 0, 0;
      senderHalves, receiverHalves, results := [], [], [];
      new;
      InitInv(cfg, v);
    }

    /** The sender's next action: the send, then its half of each collaborative stage. */
    method MaybeHelpReceiverWithContinuation()
      requires Valid()
      modifies this
      ensures Valid() && View() == SenderStep(cfg, old(View()))
    {
      SenderKeeps(cfg, View());
      hide Inv, SenderStep;
      HelpNext();
    }

    method HelpNext()
      modifies this
      ensures View() == SenderStep(cfg, old(View()))
    {
      match sender
      case SOut => sent, sender := sent + 1, SReady(0);
      case SReady(i) => if collab_work_ready_for_sender { sender := SStage(i); }
      case SStage(i) =>
        if 0 <= active_pipeline_stage < |cfg.stages| { sender := SWork(i, active_pipeline_stage); }
      case SWork(i, stage) =>
        sender_cont_work_ret_v := cfg.half(recv_buf_ptr_for_collab_cont, stage, 1);
        senderHalves, sender := senderHalves + [(recv_buf_ptr_for_collab_cont, stage)], SClear(i);
      case SClear(i) => collab_work_ready_for_sender, sender := false, SDone(i);
      case SDone(i) =>
        sender_done_cont_work := true;
        if i + 1 < cfg.NumCollabStages() { sender := SReady(i + 1); } else { helped, sender := helped + 1, SOut; }
    }

    /** The receiver's next action between stages. */
    method ExecutePCPipeline()
      requires (receiver.ROut? || receiver.RStage?)
      modifies this
      ensures View() == ReceiverStep(cfg, old(View()))
    {
      if receiver.ROut? {
        if executed < sent {
          recv_buf_ptr_for_collab_cont, stage_ret_vals, receiver := executed, [], RStage(0);
        }
      } else {
        var j := receiver.j;
        if j >= |cfg.stages| {
          results, executed, receiver := results + [stage_ret_vals], executed + 1, ROut;
        } else if cfg.stages[j].collab {
          active_pipeline_stage, receiver := j, RReady(j);
        } else {
          stage_ret_vals, receiver := stage_ret_vals + [cfg.full(recv_buf_ptr_for_collab_cont, j)], RStage(j + 1);
        }
      }
    }

    /** The receiver's next action in a collaborative stage. */
    method StartSenderRecieverCollabContinuation()
      requires InCollab(receiver)
      modifies this
      ensures View() == ReceiverStep(cfg, old(View()))
    {
      match receiver
      case RReady(j) => collab_work_ready_for_sender, receiver := true, RWork(j);
      case RWork(j) =>
        var recv_ret := cfg.half(recv_buf_ptr_for_collab_cont, j, 0);
        receiverHalves, receiver := receiverHalves + [(recv_buf_ptr_for_collab_cont, j)], RWait(j, recv_ret);
      case RWait(j, v) => if sender_done_cont_work { receiver := RReset(j, v); }
      case RReset(j, v) => sender_done_cont_work, receiver := false, RCombine(j, v);
      case RCombine(j, v) =>
        var r := cfg.nothing;
        if j < |cfg.stages| && cfg.stages[j].reduces { r := cfg.reducer(j, sender_cont_work_ret_v, v); }
        stage_ret_vals, receiver := stage_ret_vals + [r], RStage(j + 1);
    }

    method Receive()
      requires Valid()
      modifies this
      ensures Valid() && View() == ReceiverStep(cfg, old(View()))
    {
      ReceiverKeeps(cfg, View());
      hide Inv, ReceiverStep;
      if InCollab(receiver) { StartSenderRecieverCollabContinuation(); } else { ExecutePCPipeline(); }
    }

    /** Any interleaving of the two parties is a run of the machine. */
    method RunSchedule(sched: Schedule)
      requires Valid() && View() == Init(sender_cont_work_ret_v)
      modifies this
      ensures Valid() && View() == After(cfg, old(sender_cont_work_ret_v), sched)
    {
      ghost var v := sender_cont_work_ret_v;
      var i := 0;
      while i < |sched|
        invariant 0 <= i <= |sched|
        invariant Valid() && View() == After(cfg, v, sched[..i])
      {
        hide Inv, SenderStep, ReceiverStep;
        assert sched[..i + 1][..i] == sched[..i];
        if sched[i] { MaybeHelpReceiverWithContinuation(); } else { Receive(); }
        i := i + 1;
      }
      assert sched[..|sched|] == sched;
    }
  }
}
