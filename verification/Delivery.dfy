/** Messages, and what a sequence of deliveries into user buffers leaves in memory. */
module Delivery {

  type Payload(==, !new)

  /** A payload with its element count. */
  datatype Msg = Msg(count: nat, payload: Payload)

  /** A buffer's address. */
  type Buf = nat

  /** Memory after message i has been copied to dests[i], for each i in order. */
  function Replay(dests: seq<Buf>, msgs: seq<Msg>): map<Buf, Msg>
    requires |msgs| <= |dests|
  {
    if msgs == [] then map[]
    else Replay(dests, msgs[..|msgs| - 1])[dests[|msgs| - 1] := msgs[|msgs| - 1]]
  }

  lemma ReplayNext(dests: seq<Buf>, msgs: seq<Msg>, m: Msg)
    requires |msgs| < |dests|
    ensures Replay(dests, msgs + [m]) == Replay(dests, msgs)[dests[|msgs|] := m]
  {
    assert (msgs + [m])[..|msgs|] == msgs;
  }

  /** Posting more buffers changes nothing. */
  lemma {:induction false} ReplayMore(dests: seq<Buf>, more: seq<Buf>, msgs: seq<Msg>)
    requires |msgs| <= |dests|
    ensures Replay(dests + more, msgs) == Replay(dests, msgs)
  {
    if msgs != [] { ReplayMore(dests, more, msgs[..|msgs| - 1]); }
  }

  /** A message stays in its buffer exactly as long as that buffer is not delivered to again. */
  lemma {:induction false} ReplayKeeps(dests: seq<Buf>, msgs: seq<Msg>, i: nat)
    requires i < |msgs| <= |dests|
    requires forall k :: i < k < |msgs| ==> dests[k] != dests[i]
    ensures dests[i] in Replay(dests, msgs) && Replay(dests, msgs)[dests[i]] == msgs[i]
  {
    if i < |msgs| - 1 { ReplayKeeps(dests, msgs[..|msgs| - 1], i); }
  }
}
