/**
  A rendezvous channel between one sender and one receiver: the receiver queues the
  addresses it wants messages in, the sender takes an address, copies the message
  there and queues its element count, and the receiver's wait takes that count.
 */
module RendezvousChannel {
  import opened Delivery

  datatype Config = Config(maxBufferedMsgs: nat, maxCount: nat) {
    predicate Ok() { maxBufferedMsgs >= 1 }
  }

  /** `more`: sent by Enqueue itself, so a Wait or Test still follows. */
  datatype SPc =
    | SIdle
    | SPend(m: Msg)                               // no request was there, or a blocking call waits for one
    | SCopy(m: Msg, dest: Buf, more: bool) | SCount(m: Msg, more: bool)   // FinalizeUnbufferedSend
    | SDone                                       // message_send_done

  datatype RPc = RIdle | RWait(blocking: bool)

  /** The checks and assertions that would end the program. */
  datatype Fault = NoFault | RequestsFull | CountsFull | TooLong | ZeroCount

  datatype State = State(
    requests: seq<Buf>,            // dequeue_requests_
    counts: seq<nat>,              // deq_reqs_payload_counts_
    sender: SPc,
    receiver: RPc,
    mem: map<Buf, Msg>,
    fault: Fault,
    // history
    sent: seq<Msg>, pushed: nat, dests: seq<Buf>, got: seq<nat>)

  datatype Choice =
    | Enqueue(m: Msg) | EnqueueBlocking(m: Msg) | Dequeue(b: Buf) | Wait(blocking: bool) | Go

  /** dequeue_requests_->read, then the copy if there is a request. */
  function TakeRequest(s: State, m: Msg, more: bool): State {
    if s.requests == [] then s.(sender := SPend(m))
    else s.(requests := s.requests[1..], sender := SCopy(m, s.requests[0], more))
  }

  function SenderStep(cfg: Config, s: State, ch: Choice): State {
    match s.sender
    case SIdle =>
      if ch.Enqueue? then TakeRequest(s.(sent := s.sent + [ch.m]), ch.m, true)
      else if ch.EnqueueBlocking? then s.(sent := s.sent + [ch.m], sender := SPend(ch.m))
      else s
    case SPend(m) => TakeRequest(s, m, false)
    case SCopy(m, dest, more) =>
      if m.count > cfg.maxCount then s.(fault := TooLong)
      else s.(mem := s.mem[dest := m], sender := SCount(m, more))
    case SCount(m, more) =>
      if |s.counts| >= cfg.maxBufferedMsgs then s.(fault := CountsFull)
      else s.(counts := s.counts + [m.count], pushed := s.pushed + 1, sender := if more then SDone else SIdle)
    case SDone => s.(sender := SIdle)
  }

  function ReceiverStep(cfg: Config, s: State, ch: Choice): State {
    match s.receiver
    case RIdle =>
      if ch.Dequeue? then
        if |s.requests| >= cfg.maxBufferedMsgs then s.(fault := RequestsFull)
        else s.(requests := s.requests + [ch.b], dests := s.dests + [ch.b])
      else if ch.Wait? && |s.got| < |s.dests| then s.(receiver := RWait(ch.blocking))
      else s
    case RWait(blocking) =>
      if s.counts == [] then (if blocking then s else s.(receiver := RIdle))
      else s.(counts := s.counts[1..], got := s.got + [s.counts[0]], receiver := RIdle,
              fault := if s.counts[0] == 0 then ZeroCount else s.fault)
  }

  function Step(cfg: Config, s: State, sends: bool, ch: Choice): State {
    if s.fault != NoFault then s
    else if sends then SenderStep(cfg, s, ch)
    else ReceiverStep(cfg, s, ch)
  }

  function Init(): State { State([], [], SIdle, RIdle, map[], NoFault, [], 0, [], []) }

  // ------------------------------------------------------------------ the invariant

  predicate Taken(pc: SPc) { pc.SCopy? || pc.SCount? }

  /** Requests taken, and messages copied. */
  function Reads(s: State): nat { s.pushed + if Taken(s.sender) then 1 else 0 }
  function Copied(s: State): nat { s.pushed + if s.sender.SCount? then 1 else 0 }

  predicate QueuesOk(s: State) {
    && Reads(s) <= |s.dests| && s.requests == s.dests[Reads(s)..]
    && |s.got| + |s.counts| == s.pushed <= |s.sent|
    && (forall i :: 0 <= i < |s.counts| ==> s.counts[i] == s.sent[|s.got| + i].count)
    && (forall i :: 0 <= i < |s.got| ==> s.got[i] == s.sent[i].count)
    && (s.receiver.RWait? ==> |s.got| < |s.dests|)
  }

  predicate SenderOk(s: State) {
    && |s.sent| == (if s.sender.SIdle? || s.sender.SDone? then s.pushed else s.pushed + 1)
    && (s.sender.SPend? || Taken(s.sender) ==> s.sender.m == s.sent[s.pushed])
    && (s.sender.SCopy? ==> s.pushed < |s.dests| && s.sender.dest == s.dests[s.pushed])
  }

  predicate MemOk(s: State) {
    Copied(s) <= |s.sent| && Copied(s) <= |s.dests| && s.mem == Replay(s.dests, s.sent[..Copied(s)])
  }

  predicate FitsOk(cfg: Config, s: State) {
    && |s.requests| <= cfg.maxBufferedMsgs && |s.counts| <= cfg.maxBufferedMsgs
    && (forall i :: 0 <= i < Copied(s) && i < |s.sent| ==> s.sent[i].count <= cfg.maxCount)
    && (forall i :: 0 <= i < |s.got| ==> s.got[i] > 0 || (i == |s.got| - 1 && s.fault == ZeroCount))
    // what each failing check found
    && (s.fault == RequestsFull ==> |s.requests| == cfg.maxBufferedMsgs)
    && (s.fault == CountsFull ==> s.sender.SCount? && |s.counts| == cfg.maxBufferedMsgs)
    && (s.fault == TooLong ==> s.sender.SCopy? && s.sender.m.count > cfg.maxCount)
    && (s.fault == ZeroCount ==> s.got != [] && s.got[|s.got| - 1] == 0)
  }

  predicate Inv(cfg: Config, s: State) {
    cfg.Ok() && QueuesOk(s) && SenderOk(s) && MemOk(s) && FitsOk(cfg, s)
  }

  lemma CopyKeepsMem(s: State, s': State)
    requires QueuesOk(s) && SenderOk(s) && MemOk(s) && s.sender.SCopy?
    requires s' == s.(mem := s.mem[s.sender.dest := s.sender.m], sender := SCount(s.sender.m, s.sender.more))
    ensures MemOk(s')
  {
    assert s.sent[..s.pushed + 1] == s.sent[..s.pushed] + [s.sent[s.pushed]];
    ReplayNext(s.dests, s.sent[..s.pushed], s.sent[s.pushed]);
  }

  lemma EnqueueKeeps(cfg: Config, s: State, ch: Choice)
    requires Inv(cfg, s) && s.fault == NoFault && s.sender.SIdle? && (ch.Enqueue? || ch.EnqueueBlocking?)
    ensures Inv(cfg, SenderStep(cfg, s, ch))
  {
    hide Replay;
    var s' := SenderStep(cfg, s, ch);
    assert s'.sent[..Copied(s)] == s.sent[..Copied(s)];
    assert MemOk(s');
    if ch.Enqueue? && s.requests != [] { assert s'.requests == s.dests[Reads(s')..]; }
  }

  lemma PendKeeps(cfg: Config, s: State, ch: Choice)
    requires Inv(cfg, s) && s.sender.SPend? && s.fault == NoFault
    ensures Inv(cfg, SenderStep(cfg, s, ch))
  {
    hide Replay;
    var s' := SenderStep(cfg, s, ch);
    assert MemOk(s');
    if s.requests != [] { assert s'.requests == s.dests[Reads(s')..]; }
  }

  lemma CopyKeeps(cfg: Config, s: State, ch: Choice)
    requires Inv(cfg, s) && s.sender.SCopy? && s.fault == NoFault
    ensures Inv(cfg, SenderStep(cfg, s, ch))
  {
    hide Replay;
    if s.sender.m.count <= cfg.maxCount {
      CopyKeepsMem(s, SenderStep(cfg, s, ch));
      hide MemOk;
    }
  }

  lemma CountKeeps(cfg: Config, s: State, ch: Choice)
    requires Inv(cfg, s) && s.sender.SCount? && s.fault == NoFault
    ensures Inv(cfg, SenderStep(cfg, s, ch))
  {
    hide Replay;
    var s' := SenderStep(cfg, s, ch);
    assert Copied(s') == Copied(s) && s'.sent == s.sent;
    assert MemOk(s');
  }

  lemma SenderKeeps(cfg: Config, s: State, ch: Choice)
    requires Inv(cfg, s) && s.fault == NoFault
    ensures Inv(cfg, SenderStep(cfg, s, ch))
  {
    hide Replay;
    match s.sender
    case SPend(_) => PendKeeps(cfg, s, ch);
    case SCopy(_, _, _) => CopyKeeps(cfg, s, ch);
    case SCount(_, _) => CountKeeps(cfg, s, ch);
    case SIdle => if ch.Enqueue? || ch.EnqueueBlocking? { EnqueueKeeps(cfg, s, ch); }
    case SDone =>
  }

  lemma DequeueKeeps(cfg: Config, s: State, b: Buf)
    requires Inv(cfg, s) && s.receiver.RIdle? && s.fault == NoFault
    ensures Inv(cfg, ReceiverStep(cfg, s, Dequeue(b)))
  {
    hide Replay;
    ReplayMore(s.dests, [b], s.sent[..Copied(s)]);
    var s' := ReceiverStep(cfg, s, Dequeue(b));
    assert MemOk(s');
    hide MemOk;
    if |s.requests| < cfg.maxBufferedMsgs { assert s'.requests == s'.dests[Reads(s')..]; }
  }

  lemma WaitKeeps(cfg: Config, s: State, ch: Choice)
    requires Inv(cfg, s) && s.receiver.RWait? && s.fault == NoFault
    ensures Inv(cfg, ReceiverStep(cfg, s, ch))
  {
    hide Replay;
    var s' := ReceiverStep(cfg, s, ch);
    assert MemOk(s');
    if s.counts != [] { TakeCount(s, s'); }
    hide MemOk, QueuesOk;
  }

  lemma TakeCount(s: State, s': State)
    requires QueuesOk(s) && s.counts != []
    requires s' == s.(counts := s.counts[1..], got := s.got + [s.counts[0]], receiver := RIdle, fault := s'.fault)
    ensures QueuesOk(s') && s'.got[|s.got|] == s.counts[0]
  {
    forall i | 0 <= i < |s'.counts| ensures s'.counts[i] == s.sent[|s'.got| + i].count {
      assert s'.counts[i] == s.counts[i + 1] == s.sent[|s.got| + (i + 1)].count;
    }
    forall i | 0 <= i < |s'.got| ensures s'.got[i] == s.sent[i].count {
      assert i == |s.got| ==> s.counts[0] == s.sent[|s.got| + 0].count;
    }
  }

  lemma ReceiverKeeps(cfg: Config, s: State, ch: Choice)
    requires Inv(cfg, s) && s.fault == NoFault
    ensures Inv(cfg, ReceiverStep(cfg, s, ch))
  {
    hide Replay, MemOk, FitsOk, SenderOk;
    if s.receiver.RWait? {
      WaitKeeps(cfg, s, ch);
    } else if ch.Dequeue? {
      DequeueKeeps(cfg, s, ch.b);
    } else {
      WaitBegins(cfg, s, ch);
    }
  }

  lemma WaitBegins(cfg: Config, s: State, ch: Choice)
    requires Inv(cfg, s) && s.receiver.RIdle? && !ch.Dequeue?
    ensures Inv(cfg, ReceiverStep(cfg, s, ch))
  {
    hide Replay;
  }

  lemma StepInv(cfg: Config, s: State, sends: bool, ch: Choice)
    requires Inv(cfg, s)
    ensures Inv(cfg, Step(cfg, s, sends, ch))
  {
    hide Inv, SenderStep, ReceiverStep;
    if s.fault == NoFault {
      if sends { SenderKeeps(cfg, s, ch); } else { ReceiverKeeps(cfg, s, ch); }
    }
  }
}

/** What a rendezvous channel promises over every run of its two parties. */
module RendezvousChannelRuns {
  import opened Delivery
  import opened RendezvousChannel

  type Schedule = seq<(bool, Choice)>

  ghost function After(cfg: Config, sched: Schedule): State
    requires cfg.Ok()
  {
    if sched == [] then Init()
    else Step(cfg, After(cfg, sched[..|sched| - 1]), sched[|sched| - 1].0, sched[|sched| - 1].1)
  }

  lemma {:induction false} EveryRun(cfg: Config, sched: Schedule)
    requires cfg.Ok()
    ensures Inv(cfg, After(cfg, sched))
  {
    if sched == [] {
      assert Replay([], []) == map[];
    } else {
      hide Inv, Step;
      var before := sched[..|sched| - 1];
      EveryRun(cfg, before);
      StepInv(cfg, After(cfg, before), sched[|sched| - 1].0, sched[|sched| - 1].1);
    }
  }

  lemma Nothing(cfg: Config)
    requires cfg.Ok()
    ensures After(cfg, []) == Init()
  {
  }

  lemma {:induction false} Next(cfg: Config, sched: Schedule, i: nat)
    requires cfg.Ok() && i < |sched|
    ensures After(cfg, sched[..i + 1]) == Step(cfg, After(cfg, sched[..i]), sched[i].0, sched[i].1)
  {
    assert sched[..i + 1][..i] == sched[..i];
  }

  /** The i-th successful wait returned the i-th message's count, and that message had been copied before. */
  lemma {:induction false} WaitsMatchSends(cfg: Config, sched: Schedule, i: nat)
    requires cfg.Ok() && i < |After(cfg, sched).got|
    ensures var s := After(cfg, sched);
            i < |s.sent| && s.got[i] == s.sent[i].count && i < Copied(s) <= |s.dests|
            && (s.got[i] > 0 || s.fault == ZeroCount)
  {
    EveryRun(cfg, sched);
    hide Replay;
  }

  /** The i-th message copied is in the i-th posted buffer as long as no later message has been copied over it. */
  lemma {:induction false} MessageInItsBuffer(cfg: Config, sched: Schedule, i: nat)
    requires cfg.Ok() && i < Copied(After(cfg, sched))
    ensures var s := After(cfg, sched);
            && Copied(s) <= |s.dests| && Copied(s) <= |s.sent|
            && ((forall k :: i < k < Copied(s) ==> s.dests[k] != s.dests[i]) ==>
                  s.dests[i] in s.mem && s.mem[s.dests[i]] == s.sent[i])
  {
    EveryRun(cfg, sched);
    var s := After(cfg, sched);
    if forall k :: i < k < Copied(s) ==> s.dests[k] != s.dests[i] { ReplayKeeps(s.dests, s.sent[..Copied(s)], i); }
  }

  /** Dequeues posted and not yet waited for. */
  function Outstanding(s: State): int { |s.dests| - |s.got| }

  /** The receiver never has more than max_buffered_msgs dequeues outstanding. */
  ghost predicate Windowed(cfg: Config, sched: Schedule)
    requires cfg.Ok()
  {
    forall i :: 0 <= i < |sched| && !sched[i].0 && sched[i].1.Dequeue? && After(cfg, sched[..i]).receiver.RIdle? ==>
      Outstanding(After(cfg, sched[..i])) < cfg.maxBufferedMsgs
  }

  lemma {:induction false} WindowedPrefix(cfg: Config, sched: Schedule)
    requires cfg.Ok() && Windowed(cfg, sched) && sched != []
    ensures Windowed(cfg, sched[..|sched| - 1])
  {
    var p := sched[..|sched| - 1];
    forall i | 0 <= i < |p| && !p[i].0 && p[i].1.Dequeue? && After(cfg, p[..i]).receiver.RIdle?
      ensures Outstanding(After(cfg, p[..i])) < cfg.maxBufferedMsgs
    {
      assert p[..i] == sched[..i] && sched[i] == p[i];
    }
  }

  /** Inside that window neither queue-full check can fire. */
  lemma {:induction false} QueuesNeverFull(cfg: Config, sched: Schedule)
    requires cfg.Ok() && Windowed(cfg, sched)
    ensures var s := After(cfg, sched);
            && s.fault != RequestsFull && s.fault != CountsFull
            && Outstanding(s) <= cfg.maxBufferedMsgs
  {
    hide Windowed, Inv, SenderStep, ReceiverStep;
    if sched != [] {
      var before := sched[..|sched| - 1];
      WindowedPrefix(cfg, sched);
      QueuesNeverFull(cfg, before);
      EveryRun(cfg, before);
      var (sends, ch) := sched[|sched| - 1];
      if !sends && ch.Dequeue? && After(cfg, before).receiver.RIdle? { LastInWindow(cfg, sched); }
      WindowStep(cfg, After(cfg, before), sends, ch);
    }
  }

  lemma {:induction false} LastInWindow(cfg: Config, sched: Schedule)
    requires cfg.Ok() && Windowed(cfg, sched) && sched != []
    requires var i := |sched| - 1; !sched[i].0 && sched[i].1.Dequeue? && After(cfg, sched[..i]).receiver.RIdle?
    ensures Outstanding(After(cfg, sched[..|sched| - 1])) < cfg.maxBufferedMsgs
  {
  }

  lemma WindowStep(cfg: Config, s: State, sends: bool, ch: Choice)
    requires Inv(cfg, s) && Outstanding(s) <= cfg.maxBufferedMsgs
    requires s.fault != RequestsFull && s.fault != CountsFull
    requires !sends && ch.Dequeue? && s.receiver.RIdle? ==> Outstanding(s) < cfg.maxBufferedMsgs
    ensures var s' := Step(cfg, s, sends, ch);
            s'.fault != RequestsFull && s'.fault != CountsFull && Outstanding(s') <= cfg.maxBufferedMsgs
  {
    hide Replay;
  }

  /** With counts between one and the channel's limit, a windowed run faults nowhere. */
  lemma {:induction false} NoFaults(cfg: Config, sched: Schedule)
    requires cfg.Ok() && Windowed(cfg, sched)
    requires forall i :: 0 <= i < |After(cfg, sched).sent| ==> 1 <= After(cfg, sched).sent[i].count <= cfg.maxCount
    ensures After(cfg, sched).fault == NoFault
  {
    EveryRun(cfg, sched);
    hide Replay, Windowed;
    QueuesNeverFull(cfg, sched);
  }

  /** A sender with a message and a receiver waiting for one are never both stuck. */
  lemma {:induction false} NeverBothStuck(cfg: Config, sched: Schedule)
    requires cfg.Ok()
    ensures var s := After(cfg, sched);
            s.sender.SPend? && s.receiver.RWait? ==> s.requests != [] || s.counts != []
  {
    EveryRun(cfg, sched);
  }
}
