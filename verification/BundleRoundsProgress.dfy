/** The bundle channel never gets stuck: from every reachable state every endpoint can finish any number of calls. */
module BundleRoundsProgress {
  import opened Counting
  import opened Options
  import opened BundleRounds
  import opened BundleRoundsRuns

  /** An endpoint's place in its call. */
  function Rank(cfg: Config, pc: PC): nat {
    match pc
    case Out => 0
    case Insert => 1
    case MarkNotReady => 2
    case Lock => 3
    case Inc => 4
    case Transfer => 5
    case MarkReady(i) => 6 + if i <= cfg.numFrames then i else cfg.numFrames
    case Reset => cfg.numFrames + 7
    case Clear => cfg.numFrames + 8
    case Unlock => cfg.numFrames + 9
  }

  /** Finished calls. */
  function Done(ep: Endpoint): (n: int)
    ensures n >= -1
  {
    if Counted(ep.pc) then ep.given - 1 else ep.given
  }

  /** In a call, past its contribution. */
  predicate Counted(pc: PC) { Last(pc) || pc.Clear? || pc.Unlock? }

  /** Its place in all its calls: every action that changes the state takes one endpoint further. */
  function Position(cfg: Config, ep: Endpoint): nat {
    (Done(ep) + 1) * (cfg.numFrames + 10) + Rank(cfg, ep.pc)
  }

  /** Either a later place in the same call, or the end of it. */
  predicate Later(cfg: Config, ep: Endpoint, ep': Endpoint) {
    || (Done(ep') == Done(ep) && Rank(cfg, ep'.pc) > Rank(cfg, ep.pc))
    || (Done(ep') == Done(ep) + 1 && ep'.pc.Out?)
  }

  /** What is left of k calls for each endpoint; until all have finished them nobody is three ahead. */
  ghost function ToGo(cfg: Config, s: State, k: nat): (r: seq<nat>)
    ensures |r| == |s.ep|
  {
    var end := (k + 3) * (cfg.numFrames + 10);
    seq(|s.ep|, e requires 0 <= e < |s.ep| =>
      if Position(cfg, s.ep[e]) <= end then end - Position(cfg, s.ep[e]) else 0)
  }

  lemma Advances(cfg: Config, s: State, e: nat)
    requires Inv(cfg, s) && Shape(cfg, s) && e < cfg.total && Step(cfg, s, e) != s
    ensures var s' := Step(cfg, s, e);
            Later(cfg, s.ep[e], s'.ep[e]) && forall u :: 0 <= u < cfg.total && u != e ==> s'.ep[u] == s.ep[u]
  {
    hide Inv;
  }

  lemma LaterIsFurther(cfg: Config, ep: Endpoint, ep': Endpoint)
    requires Later(cfg, ep, ep')
    ensures Position(cfg, ep') > Position(cfg, ep)
  {
    if Done(ep') == Done(ep) + 1 {
      assert (Done(ep') + 1) * (cfg.numFrames + 10) == (Done(ep) + 1) * (cfg.numFrames + 10) + (cfg.numFrames + 10);
    }
  }

  lemma NotAhead(cfg: Config, s: State, e: nat, u: nat)
    requires Inv(cfg, s) && e < cfg.total && u < cfg.total
    ensures Done(s.ep[e]) <= Done(s.ep[u]) + 2
  {
    Here(cfg, s, e);
    Here(cfg, s, u);
    hide Inv;
  }

  lemma Nearer(cfg: Config, s: State, e: nat, u: nat, k: nat)
    requires Inv(cfg, s) && Shape(cfg, s) && e < cfg.total && u < cfg.total && Done(s.ep[u]) < k && Step(cfg, s, e) != s
    ensures Sum(ToGo(cfg, Step(cfg, s, e), k)) < Sum(ToGo(cfg, s, k))
  {
    var s' := Step(cfg, s, e);
    Advances(cfg, s, e);
    NotAhead(cfg, s, e, u);
    hide Inv, Step, Later, Done;
    LaterIsFurther(cfg, s.ep[e], s'.ep[e]);
    WithinCalls(Done(s.ep[e]) + 1, k + 2, cfg.numFrames + 10, Rank(cfg, s.ep[e].pc));
    hide Position, Rank;
    forall v | 0 <= v < cfg.total ensures ToGo(cfg, s', k)[v] <= ToGo(cfg, s, k)[v] {
      if v != e { assert s'.ep[v] == s.ep[v]; }
    }
    SumLess(ToGo(cfg, s, k), ToGo(cfg, s', k), e);
  }

  /** In every reachable state, with endpoints inside or outside their calls, one can move. */
  lemma {:induction false} AlwaysMoves(cfg: Config, sched: Schedule) returns (e: nat)
    requires cfg.Ok() && Legal(cfg, sched)
    ensures e < cfg.total && Step(cfg, After(cfg, sched), e) != After(cfg, sched)
  {
    hide Inv, Step;
    var s := After(cfg, sched);
    EveryRun(cfg, sched);
    if v :| 0 <= v < cfg.total && s.ep[v].pc.Out? && s.ep[v].given <= s.bundles {
      e := v;
      Enters(cfg, s, e);
    } else {
      SomeoneInside(cfg, s);
      NoDeadlock(cfg, sched);
      var v :| 0 <= v < cfg.total && !s.ep[v].pc.Out? && Step(cfg, s, v) != s;
      e := v;
    }
  }

  lemma Enters(cfg: Config, s: State, e: nat)
    requires Shape(cfg, s) && e < cfg.total && s.ep[e].pc.Out?
    ensures Step(cfg, s, e) != s
  {
    assert Step(cfg, s, e).ep[e].pc != s.ep[e].pc;
  }

  /** When all have contributed, the one that did so last is still in its call. */
  lemma SomeoneInside(cfg: Config, s: State)
    requires Inv(cfg, s) && Shape(cfg, s)
    requires forall e :: 0 <= e < cfg.total && s.ep[e].pc.Out? ==> s.ep[e].given > s.bundles
    ensures exists e :: 0 <= e < cfg.total && !s.ep[e].pc.Out?
  {
    if forall e :: 0 <= e < cfg.total ==> s.ep[e].pc.Out? {
      Full(Given(s.bundles, s.ep));
      if s.holder.Some? { Here(cfg, s, s.holder.value); }
    }
  }

  ghost predicate AllDone(s: State, k: nat) { forall e :: 0 <= e < |s.ep| ==> Done(s.ep[e]) >= k }

  lemma Then(cfg: Config, sched: Schedule, e: nat)
    requires cfg.Ok() && Legal(cfg, sched) && e < cfg.total
    ensures Legal(cfg, sched + [e]) && After(cfg, sched + [e]) == Step(cfg, After(cfg, sched), e)
  {
    assert (sched + [e])[..|sched|] == sched;
  }

  /** From every reachable state and for every k, the endpoints can go on until each has finished k calls. */
  lemma {:induction false} RoundsComplete(cfg: Config, sched: Schedule, k: nat) returns (more: Schedule)
    requires cfg.Ok() && Legal(cfg, sched)
    ensures Legal(cfg, sched + more) && AllDone(After(cfg, sched + more), k)
    decreases Sum(ToGo(cfg, After(cfg, sched), k))
  {
    hide Inv, Step, After, ToGo, Sum, Done;
    var s := After(cfg, sched);
    if u :| 0 <= u < cfg.total && Done(s.ep[u]) < k {
      EveryRun(cfg, sched);
      var e := AlwaysMoves(cfg, sched);
      Nearer(cfg, s, e, u, k);
      Then(cfg, sched, e);
      more := RoundsComplete(cfg, sched + [e], k);
      assert sched + [e] + more == sched + ([e] + more);
      more := [e] + more;
    } else {
      more := [];
      assert sched + more == sched;
    }
  }
}
