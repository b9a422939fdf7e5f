/**
  Rounds of a bundle channel: each endpoint contributes once to every bundle; the last
  contributor sends (or receives) the bundle, marks every buffer ready, resets the
  count and lets the endpoints into the next round.
 */
module BundleRounds {
  import opened Counting
  import opened Options

  /**
    `frames[e]` is the condition frame endpoint e's buffer is reported through: the sender's
    own on a send bundle, the receiving thread's, possibly shared, on a receive bundle.
   */
  datatype Config = Config(total: nat, numFrames: nat, frames: seq<nat>, readyAtStart: bool) {
    predicate Ok() {
      total >= 1 && |frames| == total && forall e :: 0 <= e < total ==> frames[e] < numFrames
    }
  }

  datatype PC =
    | Out
    | Insert                                     // WaitAllThreadsReady
    | MarkNotReady
    | Lock | Inc | Unlock                        // num_messages_in_bundle_mutex
    | Transfer | MarkReady(i: nat) | Reset | Clear   // the last contributor

  /** `given` counts the endpoint's contributions. */
  datatype Endpoint = Endpoint(pc: PC, given: nat)

  datatype State = State(
    readyRanks: set<nat>,       // ready_thread_ranks
    count: nat,                 // curr_num_messages_in_bundle
    bundles: nat,               // num_bundled_messages_sent_or_received
    holder: Option<nat>,        // who holds num_messages_in_bundle_mutex
    ready: seq<bool>,           // the condition frames
    ep: seq<Endpoint>,
    transferred: nat)           // history: MPI transfers done

  function At(s: State, e: nat, pc: PC): State
    requires e < |s.ep|
  {
    s.(ep := s.ep[e := s.ep[e].(pc := pc)])
  }

  ghost predicate Shape(cfg: Config, s: State) { cfg.Ok() && |s.ep| == cfg.total && |s.ready| == cfg.numFrames }

  /** Endpoint e's next action in Enqueue or Dequeue. */
  function Step(cfg: Config, s: State, e: nat): (s': State)
    requires Shape(cfg, s) && e < cfg.total
    ensures Shape(cfg, s')
  {
    match s.ep[e].pc
    case Out => At(s, e, Insert)
    case Insert => if e in s.readyRanks then s else At(s.(readyRanks := s.readyRanks + {e}), e, MarkNotReady)
    case MarkNotReady => At(s.(ready := s.ready[cfg.frames[e] := false]), e, Lock)
    case Lock => if s.holder.Some? then s else At(s.(holder := Some(e)), e, Inc)
    case Inc =>
      s.(count := s.count + 1,
         ep := s.ep[e := Endpoint(if s.count + 1 == cfg.total then Transfer else Unlock, s.ep[e].given + 1)])
    case Transfer => At(s.(transferred := s.transferred + 1), e, MarkReady(0))
    case MarkReady(i) => if i < cfg.numFrames then At(s.(ready := s.ready[i := true]), e, MarkReady(i + 1)) else At(s, e, Reset)
    case Reset => At(s.(count := 0, bundles := s.bundles + 1), e, Clear)
    case Clear => At(s.(readyRanks := {}), e, Unlock)
    case Unlock => At(s.(holder := None), e, Out)
  }

  function Init(cfg: Config): State {
    State({}, 0, 0, None, seq(cfg.numFrames, _ => cfg.readyAtStart), seq(cfg.total, _ => Endpoint(Out, 0)), 0)
  }

  // ------------------------------------------------------------------ the invariant

  predicate Holds(pc: PC) { pc.Inc? || pc.Unlock? || Last(pc) || pc.Clear? }

  /** The last contributor, with the bundle still to be counted. */
  predicate Last(pc: PC) { pc.Transfer? || Sent(pc) }

  predicate Sent(pc: PC) { pc.MarkReady? || pc.Reset? }

  /** In the round and past WaitAllThreadsReady, without having contributed. */
  predicate Entered(pc: PC) { pc.MarkNotReady? || Reported(pc) }

  /** Its buffer has been marked not ready for this round. */
  predicate Reported(pc: PC) { pc.Lock? || pc.Inc? }

  /** Who has contributed to the bundle being filled. */
  ghost function Given(bundles: nat, ep: seq<Endpoint>): (r: seq<bool>)
    ensures |r| == |ep|
  {
    seq(|ep|, e requires 0 <= e < |ep| => ep[e].given > bundles)
  }

  function HolderPc(s: State): PC {
    if s.holder.Some? && s.holder.value < |s.ep| then s.ep[s.holder.value].pc else Out
  }

  predicate EndpointOk(bundles: nat, holder: Option<nat>, lead: PC, e: nat, ep: Endpoint, entered: bool) {
    && bundles <= ep.given <= bundles + 1
    && (Holds(ep.pc) <==> holder == Some(e))
    && (Entered(ep.pc) || ep.pc.Clear? ==> ep.given == bundles)
    && (Last(ep.pc) ==> ep.given == bundles + 1)
    && (Last(lead) ==> ep.given == bundles + 1)
    && (lead.Clear? ==> ep.given == bundles && !Entered(ep.pc))
    && (entered <==> lead.Clear? || Entered(ep.pc) || ep.given == bundles + 1)
  }

  ghost predicate CountOk(cfg: Config, s: State) {
    && s.count == (if Last(HolderPc(s)) then cfg.total else Count(Given(s.bundles, s.ep)))
    && (!Last(HolderPc(s)) ==> s.count < cfg.total)
    && s.transferred == s.bundles + (if Sent(HolderPc(s)) then 1 else 0)
  }

  /** A frame is ready only if its endpoints' latest contributions have been transferred. */
  predicate FrameOk(cfg: Config, s: State, e: nat)
    requires Shape(cfg, s) && e < cfg.total
  {
    s.ready[cfg.frames[e]] ==> !Reported(s.ep[e].pc) && s.ep[e].given <= s.transferred
  }

  /** A frame that is not ready has an endpoint in the round, or has never been marked. */
  predicate WaitedFor(cfg: Config, s: State, f: nat)
    requires Shape(cfg, s) && f < cfg.numFrames
  {
    s.ready[f] || (s.bundles == 0 && !cfg.readyAtStart) || exists e ::
      0 <= e < |s.ep| && cfg.frames[e] == f && (Reported(s.ep[e].pc) || s.ep[e].given > s.bundles)
  }

  ghost predicate Inv(cfg: Config, s: State) {
    && Shape(cfg, s)
    && (forall e :: 0 <= e < cfg.total ==>
          EndpointOk(s.bundles, s.holder, HolderPc(s), e, s.ep[e], e in s.readyRanks))
    && (forall e :: e in s.readyRanks ==> e < cfg.total)
    && (s.holder.Some? ==> s.holder.value < cfg.total)
    && CountOk(cfg, s)
    && (forall e :: 0 <= e < cfg.total ==> FrameOk(cfg, s, e))
    && (forall f :: 0 <= f < cfg.numFrames ==> WaitedFor(cfg, s, f))
    && (HolderPc(s).MarkReady? ==> forall f :: 0 <= f < cfg.numFrames && f < HolderPc(s).i ==> s.ready[f])
    && (HolderPc(s).Reset? ==> forall f :: 0 <= f < cfg.numFrames ==> s.ready[f])
  }

  lemma InitInv(cfg: Config)
    requires cfg.Ok()
    ensures Inv(cfg, Init(cfg))
  {
    Full(Given(0, Init(cfg).ep));
  }

  lemma Here(cfg: Config, s: State, e: nat)
    requires Inv(cfg, s) && e < cfg.total
    ensures EndpointOk(s.bundles, s.holder, HolderPc(s), e, s.ep[e], e in s.readyRanks) && FrameOk(cfg, s, e)
  {
  }

  lemma SameGiven(bundles: nat, ep: seq<Endpoint>, e: nat, x: Endpoint)
    requires e < |ep| && x.given == ep[e].given
    ensures Given(bundles, ep[e := x]) == Given(bundles, ep)
  {
  }

  lemma EnterKeeps(cfg: Config, s: State, e: nat)
    requires Inv(cfg, s) && e < cfg.total && (s.ep[e].pc.Out? || s.ep[e].pc.Insert? || s.ep[e].pc.MarkNotReady?)
    ensures Inv(cfg, Step(cfg, s, e))
  {
    var s' := Step(cfg, s, e);
    Here(cfg, s, e);
    SameGiven(s.bundles, s.ep, e, s'.ep[e]);
    assert HolderPc(s') == HolderPc(s);
    forall u | 0 <= u < cfg.total
      ensures EndpointOk(s'.bundles, s'.holder, HolderPc(s'), u, s'.ep[u], u in s'.readyRanks) && FrameOk(cfg, s', u)
    {
      Here(cfg, s, u);
    }
    forall f | 0 <= f < cfg.numFrames ensures WaitedFor(cfg, s', f) { WaitersStay(cfg, s, e, f); }
  }

  /** A step that neither contributes nor resets leaves every frame's waiters. */
  lemma WaitersStay(cfg: Config, s: State, e: nat, f: nat)
    requires Shape(cfg, s) && e < cfg.total && f < cfg.numFrames && WaitedFor(cfg, s, f)
    requires !s.ep[e].pc.Reset? && s.bundles <= s.ep[e].given
    ensures WaitedFor(cfg, Step(cfg, s, e), f)
  {
    var s' := Step(cfg, s, e);
    if !s.ready[f] && !(s.bundles == 0 && !cfg.readyAtStart) {
      var u :| 0 <= u < |s.ep| && cfg.frames[u] == f && (Reported(s.ep[u].pc) || s.ep[u].given > s.bundles);
      assert Reported(s'.ep[u].pc) || s'.ep[u].given > s'.bundles;
    } else if s.ready[f] && !s'.ready[f] {
      assert Reported(s'.ep[e].pc) && cfg.frames[e] == f;
    }
  }

  lemma LockKeeps(cfg: Config, s: State, e: nat)
    requires Inv(cfg, s) && e < cfg.total && (s.ep[e].pc.Lock? || s.ep[e].pc.Unlock?)
    ensures Inv(cfg, Step(cfg, s, e))
  {
    var s' := Step(cfg, s, e);
    Here(cfg, s, e);
    SameGiven(s.bundles, s.ep, e, s'.ep[e]);
    forall u | 0 <= u < cfg.total
      ensures EndpointOk(s'.bundles, s'.holder, HolderPc(s'), u, s'.ep[u], u in s'.readyRanks) && FrameOk(cfg, s', u)
    {
      Here(cfg, s, u);
    }
    forall f | 0 <= f < cfg.numFrames ensures WaitedFor(cfg, s', f) { WaitersStay(cfg, s, e, f); }
  }

  /** A contribution; the one that fills the bundle finds everybody else's there. */
  lemma IncKeeps(cfg: Config, s: State, e: nat)
    requires Inv(cfg, s) && e < cfg.total && s.ep[e].pc.Inc?
    ensures Inv(cfg, Step(cfg, s, e))
  {
    var s' := Step(cfg, s, e);
    Here(cfg, s, e);
    var given := Given(s.bundles, s.ep);
    Raise(given, e);
    assert Given(s.bundles, s'.ep) == given[e := true];
    Full(given[e := true]);
    forall u | 0 <= u < cfg.total
      ensures EndpointOk(s'.bundles, s'.holder, HolderPc(s'), u, s'.ep[u], u in s'.readyRanks) && FrameOk(cfg, s', u)
    {
      Here(cfg, s, u);
      if s'.count == cfg.total { assert given[e := true][u]; }
    }
    forall f | 0 <= f < cfg.numFrames ensures WaitedFor(cfg, s', f) { WaitersStay(cfg, s, e, f); }
  }

  lemma TransferKeeps(cfg: Config, s: State, e: nat)
    requires Inv(cfg, s) && e < cfg.total && (s.ep[e].pc.Transfer? || s.ep[e].pc.MarkReady?)
    ensures Inv(cfg, Step(cfg, s, e))
  {
    var s' := Step(cfg, s, e);
    Here(cfg, s, e);
    SameGiven(s.bundles, s.ep, e, s'.ep[e]);
    forall u | 0 <= u < cfg.total
      ensures EndpointOk(s'.bundles, s'.holder, HolderPc(s'), u, s'.ep[u], u in s'.readyRanks) && FrameOk(cfg, s', u)
    {
      Here(cfg, s, u);
    }
    forall f | 0 <= f < cfg.numFrames ensures WaitedFor(cfg, s', f) { WaitersStay(cfg, s, e, f); }
  }

  lemma ResetKeeps(cfg: Config, s: State, e: nat)
    requires Inv(cfg, s) && e < cfg.total && s.ep[e].pc.Reset?
    ensures Inv(cfg, Step(cfg, s, e))
  {
    var s' := Step(cfg, s, e);
    Here(cfg, s, e);
    forall u | 0 <= u < cfg.total
      ensures EndpointOk(s'.bundles, s'.holder, HolderPc(s'), u, s'.ep[u], u in s'.readyRanks) && FrameOk(cfg, s', u)
      ensures !Given(s'.bundles, s'.ep)[u]
    {
      Here(cfg, s, u);
    }
    Full(Given(s'.bundles, s'.ep));
  }

  lemma ClearKeeps(cfg: Config, s: State, e: nat)
    requires Inv(cfg, s) && e < cfg.total && s.ep[e].pc.Clear?
    ensures Inv(cfg, Step(cfg, s, e))
  {
    var s' := Step(cfg, s, e);
    Here(cfg, s, e);
    SameGiven(s.bundles, s.ep, e, s'.ep[e]);
    forall u | 0 <= u < cfg.total
      ensures EndpointOk(s'.bundles, s'.holder, HolderPc(s'), u, s'.ep[u], u in s'.readyRanks) && FrameOk(cfg, s', u)
    {
      Here(cfg, s, u);
    }
    forall f | 0 <= f < cfg.numFrames ensures WaitedFor(cfg, s', f) { WaitersStay(cfg, s, e, f); }
  }

  lemma StepInv(cfg: Config, s: State, e: nat)
    requires Inv(cfg, s) && e < cfg.total
    ensures Inv(cfg, Step(cfg, s, e))
  {
    hide EndpointOk, CountOk, FrameOk, WaitedFor, Step;
    match s.ep[e].pc
    case Lock => LockKeeps(cfg, s, e);
    case Unlock => LockKeeps(cfg, s, e);
    case Inc => IncKeeps(cfg, s, e);
    case Transfer => TransferKeeps(cfg, s, e);
    case MarkReady(_) => TransferKeeps(cfg, s, e);
    case Reset => ResetKeeps(cfg, s, e);
    case Clear => ClearKeeps(cfg, s, e);
    case _ => EnterKeeps(cfg, s, e);
  }
}

/** What the rounds promise over every run. */
module BundleRoundsRuns {
  import opened Counting
  import opened Options
  import opened BundleRounds

  type Schedule = seq<nat>

  predicate Legal(cfg: Config, sched: Schedule) { forall i :: 0 <= i < |sched| ==> sched[i] < cfg.total }

  ghost function After(cfg: Config, sched: Schedule): (s: State)
    requires cfg.Ok() && Legal(cfg, sched)
    ensures Shape(cfg, s)
  {
    if sched == [] then Init(cfg) else Step(cfg, After(cfg, sched[..|sched| - 1]), sched[|sched| - 1])
  }

  lemma {:induction false} EveryRun(cfg: Config, sched: Schedule)
    requires cfg.Ok() && Legal(cfg, sched)
    ensures Inv(cfg, After(cfg, sched))
  {
    hide Inv, Step, Init;
    if sched == [] {
      InitInv(cfg);
    } else {
      EveryRun(cfg, sched[..|sched| - 1]);
      StepInv(cfg, After(cfg, sched[..|sched| - 1]), sched[|sched| - 1]);
    }
  }

  lemma Nothing(cfg: Config)
    requires cfg.Ok()
    ensures After(cfg, []) == Init(cfg)
  {
  }

  /** Every bundle goes out with exactly one contribution from each endpoint, and nobody gets two rounds ahead. */
  lemma {:induction false} OneContributionEach(cfg: Config, sched: Schedule, e: nat, u: nat)
    requires cfg.Ok() && Legal(cfg, sched) && e < cfg.total && u < cfg.total
    ensures var s := After(cfg, sched);
            && s.bundles <= s.ep[e].given <= s.bundles + 1
            && s.ep[u].given - 1 <= s.ep[e].given <= s.ep[u].given + 1
            && (s.ep[u].pc.Transfer? ==> s.ep[e].given == s.bundles + 1 == s.transferred + 1)
  {
    EveryRun(cfg, sched);
    var s := After(cfg, sched);
    Here(cfg, s, e);
    Here(cfg, s, u);
  }

  /** The counter never exceeds the total, and counts the current bundle's contributions. */
  lemma {:induction false} CounterBounded(cfg: Config, sched: Schedule)
    requires cfg.Ok() && Legal(cfg, sched)
    ensures var s := After(cfg, sched);
            && s.count <= cfg.total
            && (!HolderPc(s).Clear? ==> s.count == Count(Given(s.bundles, s.ep)))
  {
    EveryRun(cfg, sched);
    var s := After(cfg, sched);
    if Last(HolderPc(s)) {
      forall e | 0 <= e < cfg.total ensures Given(s.bundles, s.ep)[e] { Here(cfg, s, e); }
      Full(Given(s.bundles, s.ep));
    }
  }

  /** After an endpoint's k-th call its buffer is reported ready only once bundle k has been sent or received. */
  lemma {:induction false} ReadyMeansTransferred(cfg: Config, sched: Schedule, e: nat)
    requires cfg.Ok() && Legal(cfg, sched) && e < cfg.total
    ensures var s := After(cfg, sched);
            && (s.ready[cfg.frames[e]] && s.ep[e].pc.Out? ==> s.ep[e].given <= s.transferred)
            && (s.ep[e].given > s.transferred ==> !s.ready[cfg.frames[e]])
  {
    EveryRun(cfg, sched);
    Here(cfg, After(cfg, sched), e);
  }

  /** And once the round is over it is reported ready, unless an endpoint of the same frame is in the next one. */
  lemma {:induction false} ReadyAfterRound(cfg: Config, sched: Schedule, f: nat)
    requires cfg.Ok() && Legal(cfg, sched) && f < cfg.numFrames && After(cfg, sched).bundles > 0
    requires var s := After(cfg, sched);
             forall e :: 0 <= e < cfg.total && cfg.frames[e] == f ==> !Reported(s.ep[e].pc) && s.ep[e].given == s.bundles
    ensures After(cfg, sched).ready[f]
  {
    EveryRun(cfg, sched);
    assert WaitedFor(cfg, After(cfg, sched), f);
  }

  /** Only the last contributor transfers, under the lock. */
  lemma {:induction false} OneTransferAtATime(cfg: Config, sched: Schedule, e: nat, u: nat)
    requires cfg.Ok() && Legal(cfg, sched) && e < cfg.total && u < cfg.total
    ensures var s := After(cfg, sched); Holds(s.ep[e].pc) && Holds(s.ep[u].pc) ==> e == u
  {
    EveryRun(cfg, sched);
    Here(cfg, After(cfg, sched), e);
    Here(cfg, After(cfg, sched), u);
  }

  ghost predicate CanMove(cfg: Config, s: State)
    requires Shape(cfg, s)
  {
    exists e :: 0 <= e < cfg.total && !s.ep[e].pc.Out? && Step(cfg, s, e) != s
  }

  lemma Moves(cfg: Config, s: State, e: nat)
    requires Shape(cfg, s) && e < cfg.total && !s.ep[e].pc.Out? && Step(cfg, s, e).ep[e].pc != s.ep[e].pc
    ensures CanMove(cfg, s)
  {
  }

  /** Once every endpoint has made its call of the round, one of the calls can go on. */
  lemma {:induction false} NoDeadlock(cfg: Config, sched: Schedule)
    requires cfg.Ok() && Legal(cfg, sched)
    requires var s := After(cfg, sched);
             && (exists e :: 0 <= e < cfg.total && !s.ep[e].pc.Out?)
             && forall e :: 0 <= e < cfg.total && s.ep[e].pc.Out? ==> s.ep[e].given > s.bundles
    ensures CanMove(cfg, After(cfg, sched))
  {
    EveryRun(cfg, sched);
    var s := After(cfg, sched);
    if s.holder.Some? {
      Here(cfg, s, s.holder.value);
      MovesOn(cfg, s, s.holder.value);
    } else if e :| 0 <= e < cfg.total && !s.ep[e].pc.Out? && Step(cfg, s, e).ep[e].pc != s.ep[e].pc {
      Moves(cfg, s, e);
    } else {
      forall e | 0 <= e < cfg.total ensures Given(s.bundles, s.ep)[e] {
        Here(cfg, s, e);
        Blocked(cfg, s, e);
      }
      Full(Given(s.bundles, s.ep));
    }
  }

  lemma MovesOn(cfg: Config, s: State, e: nat)
    requires Shape(cfg, s) && e < cfg.total && Holds(s.ep[e].pc)
    ensures CanMove(cfg, s)
  {
    if s.ep[e].pc.MarkReady? { assert Step(cfg, s, e).ep[e].pc != s.ep[e].pc; }
    Moves(cfg, s, e);
  }

  /** Without a lock holder only an endpoint already in the round can be held up. */
  lemma Blocked(cfg: Config, s: State, e: nat)
    requires Shape(cfg, s) && e < cfg.total && s.holder.None?
    requires EndpointOk(s.bundles, s.holder, HolderPc(s), e, s.ep[e], e in s.readyRanks)
    requires s.ep[e].pc.Out? ==> s.ep[e].given > s.bundles
    requires !s.ep[e].pc.Out? ==> Step(cfg, s, e).ep[e].pc == s.ep[e].pc
    ensures s.ep[e].given > s.bundles
  {
  }
}

/** The bundle channel's fields, updated in place, one action a call. */
module BundleChannelObject {
  import opened Options
  import opened BundleRounds
  import opened BundleRoundsRuns

  class BundleChannel {
    const cfg: Config
    var ready_thread_ranks: set<nat>
    var curr_num_messages_in_bundle: nat
    var num_bundled_messages_sent_or_received: nat
    var num_messages_in_bundle_mutex: Option<nat>
    var condition_frames: seq<bool>
    var endpoints: seq<Endpoint>

    // history
    ghost var transferred: nat

    ghost function View(): State
      reads this
    {
      State(ready_thread_ranks, curr_num_messages_in_bundle, num_bundled_messages_sent_or_received,
            num_messages_in_bundle_mutex, condition_frames, endpoints, transferred)
    }

    ghost predicate Valid()
      reads this
    {
      Inv(cfg, View())
    }

    constructor (cfg: Config)
      requires cfg.Ok()
      ensures this.cfg == cfg && Valid() && View() == Init(cfg)
    {
      this.cfg := cfg;
      ready_thread_ranks, curr_num_messages_in_bundle, num_bundled_messages_sent_or_received := {}, 0, 0;
      num_messages_in_bundle_mutex := None;
      condition_frames := seq(cfg.numFrames, _ => cfg.readyAtStart);
      endpoints, transferred := seq(cfg.total, _ => Endpoint(Out, 0)), 0;
      new;
      InitInv(cfg);
    }

    method MoveTo(e: nat, pc: PC)
      requires e < |endpoints|
      modifies this`endpoints
      ensures View() == At(old(View()), e, pc)
    {
      endpoints := endpoints[e := endpoints[e].(pc := pc)];
    }

    /** The wait until the endpoint's previous bundle is complete, and the mark on its buffer. */
    method WaitAllThreadsReady(e: nat)
      requires Shape(cfg, View()) && e < cfg.total
      requires endpoints[e].pc.Out? || endpoints[e].pc.Insert? || endpoints[e].pc.MarkNotReady?
      modifies this
      ensures View() == Step(cfg, old(View()), e)
    {
      match endpoints[e].pc
      case Out => MoveTo(e, Insert);
      case Insert =>
        if e !in ready_thread_ranks {
          ready_thread_ranks := ready_thread_ranks + {e};
          MoveTo(e, MarkNotReady);
        }
      case MarkNotReady =>
        condition_frames := condition_frames[cfg.frames[e] := false];
        MoveTo(e, Lock);
    }

    method CountMessage(e: nat)
      requires Shape(cfg, View()) && e < cfg.total
      requires endpoints[e].pc.Lock? || endpoints[e].pc.Inc? || endpoints[e].pc.Unlock?
      modifies this
      ensures View() == Step(cfg, old(View()), e)
    {
      match endpoints[e].pc
      case Lock =>
        if num_messages_in_bundle_mutex.None? {
          num_messages_in_bundle_mutex := Some(e);
          MoveTo(e, Inc);
        }
      case Inc =>
        curr_num_messages_in_bundle := curr_num_messages_in_bundle + 1;
        var last := curr_num_messages_in_bundle == cfg.total;
        endpoints := endpoints[e := Endpoint(if last then Transfer else Unlock, endpoints[e].given + 1)];
      case Unlock =>
        num_messages_in_bundle_mutex := None;
        MoveTo(e, Out);
    }

    /** The last contributor: MPI transfer, condition frames, ResetState, SignalAllThreadsReady. */
    method CompleteBundle(e: nat)
      requires Shape(cfg, View()) && e < cfg.total && (Last(endpoints[e].pc) || endpoints[e].pc.Clear?)
      modifies this
      ensures View() == Step(cfg, old(View()), e)
    {
      match endpoints[e].pc
      case Transfer =>
        transferred := transferred + 1;
        MoveTo(e, MarkReady(0));
      case MarkReady(i) =>
        if i < cfg.numFrames {
          condition_frames := condition_frames[i := true];
          MoveTo(e, MarkReady(i + 1));
        } else {
          MoveTo(e, Reset);
        }
      case Reset =>
        curr_num_messages_in_bundle := 0;
        num_bundled_messages_sent_or_received := num_bundled_messages_sent_or_received + 1;
        MoveTo(e, Clear);
      case Clear =>
        ready_thread_ranks := {};
        MoveTo(e, Unlock);
    }

    /** Endpoint e's next action in Enqueue or Dequeue. */
    method Enqueue(e: nat)
      requires Valid() && e < cfg.total
      modifies this
      ensures Valid() && View() == Step(cfg, old(View()), e)
    {
      StepInv(cfg, View(), e);
      assert Shape(cfg, View());
      hide Inv, Step;
      var pc := endpoints[e].pc;
      if pc.Out? || pc.Insert? || pc.MarkNotReady? {
        WaitAllThreadsReady(e);
      } else if pc.Lock? || pc.Inc? || pc.Unlock? {
        CountMessage(e);
      } else {
        CompleteBundle(e);
      }
    }

    /** Any interleaving of the endpoints' calls is a run of the machine. */
    method RunSchedule(sched: Schedule)
      requires Valid() && Legal(cfg, sched) && cfg.Ok() && View() == Init(cfg)
      modifies this
      ensures Valid() && View() == After(cfg, sched)
    {
      hide Inv, Step, Init;
      Nothing(cfg);
      var i := 0;
      while i < |sched|
        invariant 0 <= i <= |sched|
        invariant Valid() && View() == After(cfg, sched[..i])
      {
        assert sched[..i + 1][..i] == sched[..i];
        Enqueue(sched[i]);
        i := i + 1;
      }
      assert sched[..|sched|] == sched;
    }
  }
}
