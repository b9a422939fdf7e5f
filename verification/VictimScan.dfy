/** How a thief looks for work: the direct scan over pipelines, and the scan over victim threads. */
module VictimScan {
  import opened Options

  /** The k-th pipeline looked at when the scan starts at `start`. */
  function Visited(start: nat, n: nat, k: nat): nat
    requires start < n
  {
    if start + k < n then start + k else start + k - n
  }

  class PureThread {
    /** Where the next scan starts. */
    var stealable_pipeline_idx: nat

    constructor ()
      ensures stealable_pipeline_idx == 0
    {
      stealable_pipeline_idx := 0;
    }

    /**
      The direct-steal version of MaybeExecuteStolenWorkOfRandomReceiver: `work[i]` says
      whether the call into pipeline i would do work.  It stops at the first pipeline, from
      the thread's index on and around, that has some, and stays there; otherwise it has
      called each pipeline once and is back where it began.
     */
    method MaybeExecuteStolenWorkOfRandomReceiver(work: seq<bool>) returns (calls: nat)
      requires stealable_pipeline_idx < |work|
      modifies this
      ensures stealable_pipeline_idx < |work| && 1 <= calls <= |work|
      ensures forall k :: 0 <= k < calls - 1 ==> !work[Visited(old(stealable_pipeline_idx), |work|, k)]
      ensures if work[stealable_pipeline_idx]
              then stealable_pipeline_idx == Visited(old(stealable_pipeline_idx), |work|, calls - 1)
              else stealable_pipeline_idx == old(stealable_pipeline_idx) && calls == |work|
      ensures work[stealable_pipeline_idx] <==> true in work
    {
      var start_idx, n := stealable_pipeline_idx, |work|;
      calls := 0;
      while true
        invariant stealable_pipeline_idx < n && 0 <= calls < n
        invariant stealable_pipeline_idx == Visited(start_idx, n, calls)
        invariant forall k :: 0 <= k < calls ==> !work[Visited(start_idx, n, k)]
        decreases n - calls
      {
        calls := calls + 1;
        if work[stealable_pipeline_idx] { break; }
        stealable_pipeline_idx := if stealable_pipeline_idx == n - 1 then 0 else stealable_pipeline_idx + 1;
        if stealable_pipeline_idx == start_idx {
          AllVisited(work, start_idx);
          break;
        }
      }
    }

    /** GetVictimPipeline: the first victim thread, in the sorted order, with an active pipeline. */
    method GetVictimPipeline(active: seq<Option<nat>>) returns (pp: Option<nat>)
      ensures pp == None <==> forall i :: 0 <= i < |active| ==> active[i] == None
      ensures pp.Some? ==> exists i :: 0 <= i < |active| && active[i] == pp && forall k :: 0 <= k < i ==> active[k] == None
    {
      for i := 0 to |active|
        invariant forall k :: 0 <= k < i ==> active[k] == None
      {
        if active[i].Some? { return active[i]; }
      }
      pp := None;
    }
  }

  /** A scan all the way around looks at every pipeline. */
  lemma AllVisited(work: seq<bool>, start: nat)
    requires start < |work| && forall k :: 0 <= k < |work| ==> !work[Visited(start, |work|, k)]
    ensures true !in work
  {
    forall i | 0 <= i < |work| ensures !work[i] {
      var k := if i >= start then i - start else i + |work| - start;
      assert Visited(start, |work|, k) == i;
    }
  }
}
