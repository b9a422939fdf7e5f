/**
  A channel that passes malloc'ed buffers from sender to receiver through a queue of
  pointers and hands them back through a second queue, the free list.  The receiver
  keeps the buffer of its last message until its next Dequeue.
 */
module RecyclingChannel {
  import opened Delivery
  import opened Options
  import opened Buffers

  /** `capacity`: how many entries each queue can hold; `freeList`: recycle, or malloc and free each time. */
  datatype Config = Config(capacity: nat, freeList: bool)

  datatype SPc = SIdle | SGet(m: Msg) | SFill(m: Msg, b: Buf) | SWrite(m: Msg, b: Buf)
  datatype RPc = RIdle | RFront | RPop

  datatype State = State(
    queue: seq<Entry>,             // buffered_payloads_
    free: seq<Buf>,                // free_buffers_
    sender: SPc,
    receiver: RPc,
    raw: Option<Buf>,              // the receive channel's buffer pointer
    count: nat,                    // the receive channel's received count
    live: map<Buf, Option<Payload>>,   // malloc'ed and not freed; None before the first copy
    doubleFree: bool,
    // history
    sent: seq<Msg>, received: seq<Msg>)

  /** What a step may need: the message of an Enqueue, the address malloc returns. */
  datatype Choice = Enqueue(m: Msg) | Malloc(b: Buf) | Go

  function Free(s: State, b: Buf): State {
    if b in s.live then s.(live := s.live - {b}) else s.(doubleFree := true)
  }

  /** GetFreeBuf. */
  function GetStep(cfg: Config, s: State, m: Msg, ch: Choice): State {
    if cfg.freeList && s.free != [] then s.(free := s.free[1..], sender := SFill(m, s.free[0]))
    else if ch.Malloc? && ch.b !in s.live then s.(live := s.live[ch.b := None], sender := SFill(m, ch.b))
    else s
  }

  function SenderStep(cfg: Config, s: State, ch: Choice): State {
    match s.sender
    case SIdle => if ch.Enqueue? then s.(sent := s.sent + [ch.m], sender := SGet(ch.m)) else s
    case SGet(m) => GetStep(cfg, s, m, ch)
    case SFill(m, b) => s.(live := s.live[b := Some(m.payload)], sender := SWrite(m, b))
    case SWrite(m, b) =>
      if |s.queue| < cfg.capacity then s.(queue := s.queue + [Entry(m.count, b)], sender := SIdle) else s
  }

  /** ReturnFreeBuf of the previous message's buffer; the pointer itself is left as it is. */
  function ReturnStep(cfg: Config, s: State): State {
    var s1 := s.(receiver := RFront);
    if s.raw.None? then s1
    else if cfg.freeList && |s.free| < cfg.capacity then s1.(free := s.free + [s.raw.value])
    else Free(s1, s.raw.value)
  }

  function ReceiverStep(cfg: Config, s: State): State {
    match s.receiver
    case RIdle => ReturnStep(cfg, s)
    case RFront =>
      if s.queue == [] then s
      else
        var e := s.queue[0];
        var p := if e.buf in s.live then s.live[e.buf] else None;
        if p.None? then s
        else s.(raw := Some(e.buf), count := e.count, receiver := RPop, received := s.received + [Msg(e.count, p.value)])
    case RPop => s.(queue := if s.queue == [] then [] else s.queue[1..], receiver := RIdle)
  }

  function Step(cfg: Config, s: State, sends: bool, ch: Choice): State {
    if sends then SenderStep(cfg, s, ch) else ReceiverStep(cfg, s)
  }

  function Init(): State { State([], [], SIdle, RIdle, None, 0, map[], false, [], []) }

  /** The destructor: the receiver's buffer, then the free list. */
  function Destroy(s: State): State {
    FreeAll(if s.raw.Some? then Free(s, s.raw.value) else s)
  }

  function FreeAll(s: State): State
    decreases |s.free|
  {
    if s.free == [] then s else FreeAll(Free(s.(free := s.free[1..]), s.free[0]))
  }

  // ------------------------------------------------------------------ who owns which buffer

  /** The queue's entries past the one already handed to the receiver. */
  function Behind(s: State): seq<Entry> {
    if s.receiver.RPop? && s.queue != [] then s.queue[1..] else s.queue
  }

  function SenderHolds(s: State): multiset<Buf> {
    if s.sender.SFill? || s.sender.SWrite? then multiset{s.sender.b} else multiset{}
  }

  function ReceiverHolds(s: State): multiset<Buf> {
    if !s.receiver.RFront? && s.raw.Some? then multiset{s.raw.value} else multiset{}
  }

  /** Every owned buffer, once for each owner. */
  function Owned(s: State): multiset<Buf> {
    SenderHolds(s) + multiset(Bufs(Behind(s))) + ReceiverHolds(s) + multiset(s.free)
  }

  function Popped(s: State): int { |s.received| - if s.receiver.RPop? then 1 else 0 }

  predicate QueueOk(s: State) {
    && 0 <= Popped(s)
    && |s.sent| == Popped(s) + |s.queue| + (if s.sender.SIdle? then 0 else 1)
    && (!s.sender.SIdle? ==> s.sender.m == s.sent[|s.sent| - 1])
    && (s.sender.SWrite? ==> s.sender.b in s.live && s.live[s.sender.b] == Some(s.sender.m.payload))
    && (forall i :: 0 <= i < |s.queue| ==> Carries(s.live, s.queue[i], s.sent[Popped(s) + i]))
  }

  predicate ReceiverOk(s: State) {
    && |s.received| <= |s.sent| && s.received == s.sent[..|s.received|]
    && (s.raw.Some? <==> s.received != [])
    && (!s.receiver.RFront? && s.raw.Some? ==>
          s.raw.value in s.live && Carries(s.live, Entry(s.count, s.raw.value), s.received[|s.received| - 1]))
    && (s.receiver.RPop? ==> s.queue != [] && s.raw == Some(s.queue[0].buf))
  }

  predicate SizesOk(cfg: Config, s: State) {
    && |s.queue| <= cfg.capacity && |s.free| <= cfg.capacity && |s.live| <= cfg.capacity + 2
    && (!cfg.freeList ==> s.free == [])
  }

  predicate Inv(cfg: Config, s: State) {
    && Owned(s) == multiset(s.live.Keys)
    && !s.doubleFree
    && QueueOk(s) && ReceiverOk(s) && SizesOk(cfg, s)
  }

  // ------------------------------------------------------------------ steps keep it

  lemma OwnedOnce(s: State, b: Buf)
    requires Owned(s) == multiset(s.live.Keys)
    ensures Owned(s)[b] == if b in s.live then 1 else 0
  {
  }

  /** A buffer of the sender's is in nobody else's hands. */
  lemma SenderAlone(s: State, i: nat)
    requires Owned(s) == multiset(s.live.Keys) && (s.sender.SFill? || s.sender.SWrite?)
    ensures s.sender.b in s.live
    ensures i < |Behind(s)| ==> Behind(s)[i].buf != s.sender.b
    ensures !s.receiver.RFront? && s.raw.Some? ==> s.raw.value != s.sender.b
  {
    OwnedOnce(s, s.sender.b);
    assert SenderHolds(s)[s.sender.b] == 1;
    if i < |Behind(s)| {
      assert Bufs(Behind(s))[i] in multiset(Bufs(Behind(s)));
    }
  }

  lemma BeginKeeps(cfg: Config, s: State, m: Msg)
    requires Inv(cfg, s) && s.sender.SIdle?
    ensures Inv(cfg, s.(sent := s.sent + [m], sender := SGet(m)))
  {
    hide Owned, QueueOk, ReceiverOk;
    BeginOwned(s, m);
    BeginContents(s, m);
  }

  lemma BeginOwned(s: State, m: Msg)
    requires s.sender.SIdle?
    ensures Owned(s.(sent := s.sent + [m], sender := SGet(m))) == Owned(s)
  {
    hide Bufs;
  }

  lemma BeginContents(s: State, m: Msg)
    requires QueueOk(s) && ReceiverOk(s) && s.sender.SIdle?
    ensures var s' := s.(sent := s.sent + [m], sender := SGet(m)); QueueOk(s') && ReceiverOk(s')
  {
    hide Carries;
  }

  lemma GetKeeps(cfg: Config, s: State, m: Msg, ch: Choice)
    requires Inv(cfg, s) && s.sender == SGet(m)
    ensures Inv(cfg, GetStep(cfg, s, m, ch))
  {
    hide Owned, QueueOk, ReceiverOk;
    GetOwned(cfg, s, m, ch);
    GetContents(cfg, s, m, ch);
    if !(cfg.freeList && s.free != []) { OwnedCount(s); Few(s); }
  }

  lemma GetOwned(cfg: Config, s: State, m: Msg, ch: Choice)
    requires Owned(s) == multiset(s.live.Keys) && s.sender == SGet(m)
    ensures var s' := GetStep(cfg, s, m, ch); Owned(s') == multiset(s'.live.Keys)
  {
    hide Bufs;
    if cfg.freeList && s.free != [] {
      RecycleOwned(s, m);
    } else if ch.Malloc? && ch.b !in s.live {
      MallocOwned(s, m, ch.b);
    }
  }

  lemma RecycleOwned(s: State, m: Msg)
    requires s.sender == SGet(m) && s.free != []
    ensures Owned(s.(free := s.free[1..], sender := SFill(m, s.free[0]))) == Owned(s)
  {
    hide Bufs;
    HeadOut(s.free);
  }

  lemma MallocOwned(s: State, m: Msg, b: Buf)
    requires Owned(s) == multiset(s.live.Keys) && s.sender == SGet(m) && b !in s.live
    ensures var s' := s.(live := s.live[b := None], sender := SFill(m, b));
            Owned(s') == multiset(s'.live.Keys)
  {
    hide Owned;
    var s' := s.(live := s.live[b := None], sender := SFill(m, b));
    TakesOne(s, m, b);
    assert s'.live.Keys == s.live.Keys + {b};
    OneMore(s.live.Keys, b);
  }

  lemma TakesOne(s: State, m: Msg, b: Buf)
    requires s.sender == SGet(m)
    ensures Owned(s.(live := s.live[b := None], sender := SFill(m, b))) == Owned(s) + multiset{b}
  {
    hide Bufs;
    var s' := s.(live := s.live[b := None], sender := SFill(m, b));
    assert Behind(s') == Behind(s) && ReceiverHolds(s') == ReceiverHolds(s);
  }

  lemma GetContents(cfg: Config, s: State, m: Msg, ch: Choice)
    requires QueueOk(s) && ReceiverOk(s) && s.sender == SGet(m)
    ensures var s' := GetStep(cfg, s, m, ch); QueueOk(s') && ReceiverOk(s')
  {
    var s' := GetStep(cfg, s, m, ch);
    forall i | 0 <= i < |s.queue| ensures Carries(s'.live, s.queue[i], s.sent[Popped(s) + i]) {
      assert Carries(s.live, s.queue[i], s.sent[Popped(s) + i]);
    }
  }

  lemma Few(s: State)
    ensures |SenderHolds(s)| <= 1 && |ReceiverHolds(s)| <= 1 && |Behind(s)| <= |s.queue|
    ensures s.sender.SGet? ==> |SenderHolds(s)| == 0
  {
  }

  /** Without a free list to count, at most a queue full, the receiver's buffer and the sender's are live. */
  lemma OwnedCount(s: State)
    requires Owned(s) == multiset(s.live.Keys)
    ensures |s.live| == |SenderHolds(s)| + |Behind(s)| + |ReceiverHolds(s)| + |s.free|
  {
    assert |multiset(s.live.Keys)| == |s.live.Keys| == |s.live|;
    assert |multiset(Bufs(Behind(s)))| == |Behind(s)|;
  }

  lemma FillKeeps(cfg: Config, s: State, m: Msg, b: Buf)
    requires Inv(cfg, s) && s.sender == SFill(m, b)
    ensures Inv(cfg, s.(live := s.live[b := Some(m.payload)], sender := SWrite(m, b)))
  {
    hide QueueOk, ReceiverOk;
    var s' := s.(live := s.live[b := Some(m.payload)], sender := SWrite(m, b));
    SenderAlone(s, 0);
    assert s'.live.Keys == s.live.Keys;
    assert Owned(s') == Owned(s);
    hide Owned;
    FillContents(s, m, b);
  }

  lemma FillContents(s: State, m: Msg, b: Buf)
    requires Owned(s) == multiset(s.live.Keys) && QueueOk(s) && ReceiverOk(s) && s.sender == SFill(m, b)
    ensures var s' := s.(live := s.live[b := Some(m.payload)], sender := SWrite(m, b)); QueueOk(s') && ReceiverOk(s')
  {
    hide Owned;
    var s' := s.(live := s.live[b := Some(m.payload)], sender := SWrite(m, b));
    SenderAlone(s, 0);
    forall i | 0 <= i < |s.queue| ensures Carries(s'.live, s.queue[i], s.sent[Popped(s) + i]) {
      assert Carries(s.live, s.queue[i], s.sent[Popped(s) + i]);
      if !s.receiver.RPop? { SenderAlone(s, i); } else if i > 0 { SenderAlone(s, i - 1); }
    }
  }

  lemma WriteKeeps(cfg: Config, s: State, m: Msg, b: Buf)
    requires Inv(cfg, s) && s.sender == SWrite(m, b) && |s.queue| < cfg.capacity
    ensures Inv(cfg, s.(queue := s.queue + [Entry(m.count, b)], sender := SIdle))
  {
    hide Owned, QueueOk, ReceiverOk;
    WriteContents(s, m, b);
    WriteOwned(s, m, b);
  }

  lemma WriteOwned(s: State, m: Msg, b: Buf)
    requires s.sender == SWrite(m, b) && (s.receiver.RPop? ==> s.queue != [])
    ensures Owned(s.(queue := s.queue + [Entry(m.count, b)], sender := SIdle)) == Owned(s)
  {
    var s' := s.(queue := s.queue + [Entry(m.count, b)], sender := SIdle);
    assert Behind(s') == Behind(s) + [Entry(m.count, b)];
    assert Bufs(Behind(s')) == Bufs(Behind(s)) + [b];
  }

  lemma WriteContents(s: State, m: Msg, b: Buf)
    requires QueueOk(s) && ReceiverOk(s) && s.sender == SWrite(m, b)
    ensures var s' := s.(queue := s.queue + [Entry(m.count, b)], sender := SIdle); QueueOk(s') && ReceiverOk(s')
    ensures s.receiver.RPop? ==> s.queue != []
  {
    var s' := s.(queue := s.queue + [Entry(m.count, b)], sender := SIdle);
    forall i | 0 <= i < |s'.queue| ensures Carries(s'.live, s'.queue[i], s'.sent[Popped(s') + i]) {
      if i < |s.queue| { assert Carries(s.live, s.queue[i], s.sent[Popped(s) + i]); }
    }
  }

  lemma ReturnKeeps(cfg: Config, s: State)
    requires Inv(cfg, s) && s.receiver.RIdle?
    ensures Inv(cfg, ReturnStep(cfg, s))
  {
    hide Owned, QueueOk, ReceiverOk;
    ReturnOwned(cfg, s);
    ReturnContents(cfg, s);
  }

  lemma ReturnOwned(cfg: Config, s: State)
    requires Owned(s) == multiset(s.live.Keys) && s.receiver.RIdle? && !s.doubleFree
    ensures var s' := ReturnStep(cfg, s);
            Owned(s') == multiset(s'.live.Keys) && !s'.doubleFree && |s'.live| <= |s.live|
  {
    hide Owned;
    if s.raw.None? {
      assert Owned(s.(receiver := RFront)) == Owned(s) by { NothingHeld(s); }
    } else if cfg.freeList && |s.free| < cfg.capacity {
      ToFreeList(s);
    } else {
      ReturnFrees(s);
    }
  }

  lemma NothingHeld(s: State)
    requires s.receiver.RIdle? && s.raw.None?
    ensures Owned(s.(receiver := RFront)) == Owned(s)
  {
    hide Bufs;
  }

  lemma ToFreeList(s: State)
    requires s.receiver.RIdle? && s.raw.Some?
    ensures Owned(s.(receiver := RFront, free := s.free + [s.raw.value])) == Owned(s)
  {
    hide Bufs;
  }

  /** free() of the receiver's buffer: it is live, and the receiver's alone. */
  lemma ReturnFrees(s: State)
    requires Owned(s) == multiset(s.live.Keys) && s.receiver.RIdle? && s.raw.Some? && !s.doubleFree
    ensures var s' := Free(s.(receiver := RFront), s.raw.value);
            Owned(s') == multiset(s'.live.Keys) && !s'.doubleFree && |s'.live| <= |s.live|
  {
    hide Owned;
    var b := s.raw.value;
    var s' := s.(receiver := RFront, live := s.live - {b});
    LetGo(s, s.live - {b});
    OwnedOnce(s, b);
    var keys := s.live.Keys - {b};
    assert s'.live.Keys == keys && keys + {b} == s.live.Keys;
    OneMore(keys, b);
    OneLess(Owned(s'), multiset(keys), b);
  }

  lemma LetGo(s: State, live: map<Buf, Option<Payload>>)
    requires s.receiver.RIdle? && s.raw.Some?
    ensures Owned(s.(receiver := RFront, live := live)) + multiset{s.raw.value} == Owned(s)
    ensures Owned(s)[s.raw.value] > 0
  {
    hide Bufs;
    var s' := s.(receiver := RFront, live := live);
    assert ReceiverHolds(s) == multiset{s.raw.value};
    assert Behind(s') == Behind(s) && SenderHolds(s') == SenderHolds(s);
  }

  lemma ReturnContents(cfg: Config, s: State)
    requires Owned(s) == multiset(s.live.Keys) && QueueOk(s) && ReceiverOk(s) && s.receiver.RIdle?
    ensures var s' := ReturnStep(cfg, s); QueueOk(s') && ReceiverOk(s')
  {
    hide Owned;
    var s' := ReturnStep(cfg, s);
    if s.raw.Some? { OthersKeep(s, s.raw.value); }
    forall i | 0 <= i < |s.queue| ensures Carries(s'.live, s.queue[i], s.sent[Popped(s) + i]) {
      assert Carries(s.live, s.queue[i], s.sent[Popped(s) + i]);
    }
  }

  /** Freeing the receiver's buffer touches nobody else's. */
  lemma OthersKeep(s: State, b: Buf)
    requires Owned(s) == multiset(s.live.Keys) && s.receiver.RIdle? && s.raw == Some(b)
    ensures s.sender.SWrite? ==> s.sender.b != b
    ensures forall i :: 0 <= i < |s.queue| ==> s.queue[i].buf != b
  {
    OwnedOnce(s, b);
    assert ReceiverHolds(s)[b] == 1;
    forall i | 0 <= i < |s.queue| ensures s.queue[i].buf != b {
      assert Bufs(Behind(s))[i] in multiset(Bufs(Behind(s)));
    }
  }

  lemma FrontKeeps(cfg: Config, s: State)
    requires Inv(cfg, s) && s.receiver.RFront?
    ensures Inv(cfg, ReceiverStep(cfg, s))
    ensures s.queue != [] ==> TakesFront(s, ReceiverStep(cfg, s))
  {
    hide Owned, QueueOk, ReceiverOk;
    if s.queue != [] {
      FrontContents(cfg, s);
      FrontOwned(s, ReceiverStep(cfg, s));
    }
  }

  /** The receiver's pointer and count become the front entry's, and its message is received. */
  predicate TakesFront(s: State, s': State) {
    && 0 <= Popped(s) < |s.sent| && s.queue != []
    && s' == s.(raw := Some(s.queue[0].buf), count := s.queue[0].count, receiver := RPop,
                received := s.received + [s.sent[Popped(s)]])
  }

  lemma FrontContents(cfg: Config, s: State)
    requires QueueOk(s) && ReceiverOk(s) && s.receiver.RFront? && s.queue != []
    ensures var s' := ReceiverStep(cfg, s); QueueOk(s') && ReceiverOk(s') && TakesFront(s, s')
  {
    var s' := ReceiverStep(cfg, s);
    var m := s.sent[Popped(s) + 0];
    assert Carries(s.live, s.queue[0], m);
    assert Msg(s.queue[0].count, m.payload) == m;
  }

  lemma FrontOwned(s: State, s': State)
    requires s.receiver.RFront? && TakesFront(s, s')
    ensures Owned(s') == Owned(s)
  {
    hide Bufs;
    TailBufs(s.queue);
  }

  lemma PopKeeps(cfg: Config, s: State)
    requires Inv(cfg, s) && s.receiver.RPop?
    ensures Inv(cfg, ReceiverStep(cfg, s))
  {
    hide QueueOk, ReceiverOk, Bufs;
    PopContents(cfg, s);
    assert Owned(ReceiverStep(cfg, s)) == Owned(s);
  }

  lemma PopContents(cfg: Config, s: State)
    requires QueueOk(s) && ReceiverOk(s) && s.receiver.RPop?
    ensures var s' := ReceiverStep(cfg, s); QueueOk(s') && ReceiverOk(s')
    ensures s.queue != []
  {
    var s' := ReceiverStep(cfg, s);
    forall i | 0 <= i < |s'.queue| ensures Carries(s'.live, s'.queue[i], s'.sent[Popped(s') + i]) {
      assert Carries(s.live, s.queue[i + 1], s.sent[Popped(s) + (i + 1)]);
    }
  }

  lemma StepInv(cfg: Config, s: State, sends: bool, ch: Choice)
    requires Inv(cfg, s)
    ensures Inv(cfg, Step(cfg, s, sends, ch))
  {
    hide Inv, GetStep, ReturnStep;
    if sends {
      match s.sender
      case SIdle => if ch.Enqueue? { BeginKeeps(cfg, s, ch.m); }
      case SGet(m) => GetKeeps(cfg, s, m, ch);
      case SFill(m, b) => FillKeeps(cfg, s, m, b);
      case SWrite(m, b) => if |s.queue| < cfg.capacity { WriteKeeps(cfg, s, m, b); }
    } else {
      match s.receiver
      case RIdle => ReturnKeeps(cfg, s);
      case RFront => FrontKeeps(cfg, s);
      case RPop => PopKeeps(cfg, s);
    }
  }
}
