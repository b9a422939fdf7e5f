/**
  A buffered channel between one sender and one receiver: a ring of slots with a
  cached copy of the other side's index on each side, a front slot that is handed to
  the receiver in place and popped only by its next call, and a growing ring of the
  receiver's own buffers.
 */
module BufferedChannel {
  import opened Delivery
  import opened RingIndices

  /** Whether the receiver names a buffer in every Dequeue, or in none. */
  datatype Config = Config(maxBufferedMsgs: nat, userBufs: bool) {
    predicate Ok() { maxBufferedMsgs >= 1 }
    /** One slot always stays free. */
    function Size(): nat { maxBufferedMsgs + 1 }
  }

  /** A slot is torn while a message is being copied into it. */
  datatype Slot = Empty | Torn | Full(msg: Msg)

  /** `more`: the message is being sent by Enqueue, so a Wait or Test still follows. */
  datatype SPc =
    | SIdle
    | SPend(m: Msg)                // Enqueue found no room, or a blocking call waits for it
    | SSpace(m: Msg, more: bool) | SCopy(m: Msg, more: bool) | SStore(m: Msg, more: bool)
    | SDone                        // message_send_done

  datatype RPc = RIdle | RFront(blocking: bool) | RRead

  datatype Call = NoCall | DidDequeue | DidWait(received: bool)

  datatype State = State(
    slots: seq<Slot>,
    r: nat, w: nat,                 // read and write index, counted without wrap-around
    rCached: nat, wCached: nat,     // the sender's copy of r, the receiver's copy of w
    sender: SPc,
    receiver: RPc,
    okToPop: bool,                  // ok_to_pop_buffer
    userBufs: seq<Buf>, capacity: nat,  // buffered_dequeue_dest_bufs
    mem: map<Buf, Msg>,             // the receiver's own buffers
    // history
    sent: seq<Msg>, received: seq<Msg>, dests: seq<Buf>, dequeues: nat, last: Call)

  datatype Choice =
    | Enqueue(m: Msg) | EnqueueBlocking(m: Msg) | Dequeue(b: Buf) | Wait(blocking: bool) | Go

  /** writeAndCopyBuf's look for a free slot, refreshing the cached index when it seems full. */
  function TrySpace(cfg: Config, s: State, m: Msg, more: bool): State {
    var rc := if s.w + 1 == s.rCached + cfg.Size() then s.r else s.rCached;
    s.(rCached := rc, sender := if s.w + 1 == rc + cfg.Size() then SPend(m) else SSpace(m, more))
  }

  function SenderStep(cfg: Config, s: State, ch: Choice): (s': State)
    requires cfg.Ok() && |s.slots| == cfg.Size()
    ensures |s'.slots| == cfg.Size()
  {
    match s.sender
    case SIdle =>
      if ch.Enqueue? then TrySpace(cfg, s.(sent := s.sent + [ch.m]), ch.m, true)
      else if ch.EnqueueBlocking? then s.(sent := s.sent + [ch.m], sender := SPend(ch.m))
      else s
    case SPend(m) => TrySpace(cfg, s, m, false)
    case SSpace(m, more) => s.(slots := s.slots[s.w % cfg.Size() := Torn], sender := SCopy(m, more))
    case SCopy(m, more) => s.(slots := s.slots[s.w % cfg.Size() := Full(m)], sender := SStore(m, more))
    case SStore(m, more) => s.(w := s.w + 1, sender := if more then SDone else SIdle)
    case SDone => s.(sender := SIdle)
  }

  /** popFront, when the previous message has been used. */
  function PopUsed(s: State): State {
    if s.okToPop then s.(r := s.r + 1, okToPop := false) else s
  }

  /** A bounded circular buffer's push_back: a full one loses its oldest entry. */
  function PushBack(q: seq<Buf>, capacity: nat, b: Buf): seq<Buf> {
    if |q| < capacity || q == [] then q + [b] else q[1..] + [b]
  }

  function DequeueStep(cfg: Config, s: State, b: Buf): State {
    var s1 := s.(dequeues := s.dequeues + 1, last := DidDequeue);
    PopUsed(if !cfg.userBufs then s1
            else
              var capacity := if s.capacity - |s.userBufs| == 1 then 2 * s.capacity else s.capacity;
              s1.(userBufs := PushBack(s.userBufs, capacity, b), capacity := capacity, dests := s.dests + [b]))
  }

  /** FinalizeMessageReceive, and a successful DequeueWait's last action. */
  function ReceiveStep(s: State, m: Msg): State {
    var s1 := s.(received := s.received + [m], okToPop := true, receiver := RIdle, last := DidWait(true));
    if s.userBufs == [] then s1
    else s1.(mem := s.mem[s.userBufs[0] := m], userBufs := s.userBufs[1..])
  }

  function ReceiverStep(cfg: Config, s: State, ch: Choice): (s': State)
    requires cfg.Ok() && |s.slots| == cfg.Size()
    ensures |s'.slots| == cfg.Size()
  {
    match s.receiver
    case RIdle =>
      if ch.Dequeue? then DequeueStep(cfg, s, ch.b)
      else if ch.Wait? && |s.received| < s.dequeues then PopUsed(s).(receiver := RFront(ch.blocking))
      else s
    case RFront(blocking) =>
      var wc := if s.r == s.wCached then s.w else s.wCached;
      if s.r != wc then s.(wCached := wc, receiver := RRead)
      else if blocking then s.(wCached := wc)
      else s.(wCached := wc, receiver := RIdle, last := DidWait(false))
    case RRead =>
      var slot := s.slots[s.r % cfg.Size()];
      if slot.Full? then ReceiveStep(s, slot.msg) else s
  }

  function Step(cfg: Config, s: State, sends: bool, ch: Choice): (s': State)
    requires cfg.Ok() && |s.slots| == cfg.Size()
    ensures |s'.slots| == cfg.Size()
  {
    if sends then SenderStep(cfg, s, ch) else ReceiverStep(cfg, s, ch)
  }

  function Init(cfg: Config): State {
    State(seq(cfg.Size(), _ => Empty), 0, 0, 0, 0, SIdle, RIdle, false, [], 1, map[], [], [], [], 0, NoCall)
  }

  // ------------------------------------------------------------------ the invariant

  /** The sender has found room for its message and not yet published it. */
  predicate Filling(pc: SPc) { pc.SSpace? || pc.SCopy? || pc.SStore? }

  predicate IndicesOk(cfg: Config, s: State) {
    && s.rCached <= s.r <= s.wCached <= s.w <= s.rCached + cfg.maxBufferedMsgs
    && (Filling(s.sender) ==> s.w < s.rCached + cfg.maxBufferedMsgs)
  }

  /** Every published and unpopped message sits whole in its slot. */
  predicate SlotsOk(slots: seq<Slot>, r: nat, w: nat, sent: seq<Msg>) {
    && w <= |sent| && 0 < |slots|
    && forall i :: r <= i < w ==> slots[i % |slots|] == Full(sent[i])
  }

  predicate SenderOk(slots: seq<Slot>, w: nat, sender: SPc, sent: seq<Msg>) {
    && |sent| == (if sender.SIdle? || sender.SDone? then w else w + 1)
    && (sender.SPend? || Filling(sender) ==> sender.m == sent[w])
    && (sender.SStore? ==> 0 < |slots| && slots[w % |slots|] == Full(sender.m))
  }

  predicate ReceiverOk(s: State) {
    && |s.received| == s.r + (if s.okToPop then 1 else 0)
    && |s.received| <= |s.sent| && s.received == s.sent[..|s.received|]
    && |s.received| <= s.dequeues
    && (s.okToPop ==> s.r < s.wCached)
    && (s.okToPop <==> s.receiver.RIdle? && s.last == DidWait(true))
    && (!s.receiver.RIdle? ==> |s.received| < s.dequeues)
    && (s.receiver.RRead? ==> s.r < s.wCached)
  }

  predicate UserBufsOk(cfg: Config, s: State) {
    && |s.userBufs| < s.capacity
    && |s.received| <= s.dequeues
    && if cfg.userBufs
       then |s.dests| == s.dequeues && s.userBufs == s.dests[|s.received|..] && s.mem == Replay(s.dests, s.received)
       else s.dests == [] && s.userBufs == [] && s.mem == map[]
  }

  predicate Inv(cfg: Config, s: State) {
    && cfg.Ok() && |s.slots| == cfg.Size()
    && IndicesOk(cfg, s)
    && SlotsOk(s.slots, s.r, s.w, s.sent)
    && SenderOk(s.slots, s.w, s.sender, s.sent)
    && ReceiverOk(s)
    && UserBufsOk(cfg, s)
  }

  // ------------------------------------------------------------------ steps keep it

  /** Writing the slot behind the last message disturbs none in the queue. */
  lemma WriteNext(slots: seq<Slot>, r: nat, w: nat, sent: seq<Msg>, v: Slot)
    requires SlotsOk(slots, r, w, sent) && w < r + |slots| - 1
    ensures SlotsOk(slots[w % |slots| := v], r, w, sent)
  {
    var slots' := slots[w % |slots| := v];
    forall i | r <= i < w ensures slots'[i % |slots'|] == Full(sent[i]) { DifferentSlots(|slots|, i, w); }
  }

  lemma SenderKeeps(cfg: Config, s: State, ch: Choice)
    requires Inv(cfg, s)
    ensures Inv(cfg, SenderStep(cfg, s, ch))
  {
    hide Replay, UserBufsOk, ReceiverOk;
    SenderLeavesReceiver(cfg, s, ch);
    match s.sender
    case SSpace(m, more) => WriteNext(s.slots, s.r, s.w, s.sent, Torn);
    case SCopy(m, more) => WriteNext(s.slots, s.r, s.w, s.sent, Full(m));
    case _ =>
  }

  lemma SenderLeavesReceiver(cfg: Config, s: State, ch: Choice)
    requires cfg.Ok() && |s.slots| == cfg.Size() && ReceiverOk(s) && UserBufsOk(cfg, s)
    ensures var s' := SenderStep(cfg, s, ch); ReceiverOk(s') && UserBufsOk(cfg, s')
  {
    hide Replay, SenderStep;
    SenderFrame(cfg, s, ch);
  }

  /** What the sender does not touch. */
  lemma SenderFrame(cfg: Config, s: State, ch: Choice)
    requires cfg.Ok() && |s.slots| == cfg.Size()
    ensures var s' := SenderStep(cfg, s, ch);
            && s' == s.(slots := s'.slots, w := s'.w, rCached := s'.rCached, sender := s'.sender, sent := s'.sent)
            && |s.sent| <= |s'.sent| && s'.sent[..|s.sent|] == s.sent
  {
  }

  lemma DequeueKeeps(cfg: Config, s: State, b: Buf)
    requires Inv(cfg, s) && s.receiver.RIdle?
    ensures Inv(cfg, DequeueStep(cfg, s, b))
  {
    hide SlotsOk, SenderOk, Replay;
    if cfg.userBufs { ReplayMore(s.dests, [b], s.received); }
    assert SlotsOk(s.slots, s.r, s.w, s.sent) ==> SlotsOk(s.slots, s.r + 1, s.w, s.sent) by { PopSlots(s); }
  }

  lemma PopSlots(s: State)
    ensures SlotsOk(s.slots, s.r, s.w, s.sent) ==> SlotsOk(s.slots, s.r + 1, s.w, s.sent)
  {
  }

  lemma ReceiveKeeps(cfg: Config, s: State, ch: Choice)
    requires Inv(cfg, s) && s.receiver.RRead?
    ensures Inv(cfg, ReceiverStep(cfg, s, ch))
    ensures ReceiverStep(cfg, s, ch) == ReceiveStep(s, s.sent[s.r])
  {
    hide Replay, SenderOk;
    assert s.slots[s.r % cfg.Size()] == Full(s.sent[s.r]);
    if cfg.userBufs { ReplayNext(s.dests, s.received, s.sent[s.r]); }
  }

  lemma StepInv(cfg: Config, s: State, sends: bool, ch: Choice)
    requires Inv(cfg, s)
    ensures Inv(cfg, Step(cfg, s, sends, ch))
  {
    hide Replay, SlotsOk, SenderOk;
    if sends {
      SenderKeeps(cfg, s, ch);
    } else if s.receiver.RRead? {
      ReceiveKeeps(cfg, s, ch);
    } else if s.receiver.RIdle? && ch.Dequeue? {
      DequeueKeeps(cfg, s, ch.b);
    } else {
      PopSlots(s);
    }
  }
}
