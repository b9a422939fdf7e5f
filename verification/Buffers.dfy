module Options {
  datatype Option<T> = None | Some(value: T)
}

/** Queues of buffer pointers, and multisets that count who owns which buffer. */
module Buffers {
  import opened Delivery
  import opened Options

  datatype Entry = Entry(count: nat, buf: Buf)

  function Bufs(q: seq<Entry>): (bs: seq<Buf>)
    ensures |bs| == |q|
  {
    seq(|q|, i requires 0 <= i < |q| => q[i].buf)
  }

  /** The entry's buffer is live and holds the message. */
  predicate Carries(live: map<Buf, Option<Payload>>, e: Entry, m: Msg) {
    e.count == m.count && e.buf in live && live[e.buf] == Some(m.payload)
  }

  lemma TailBufs(q: seq<Entry>)
    requires q != []
    ensures Bufs(q) == [q[0].buf] + Bufs(q[1..])
    ensures multiset(Bufs(q)) == multiset{q[0].buf} + multiset(Bufs(q[1..]))
  {
    assert Bufs(q) == [q[0].buf] + Bufs(q[1..]);
  }

  lemma HeadOut(xs: seq<Buf>)
    requires xs != []
    ensures multiset(xs) == multiset{xs[0]} + multiset(xs[1..])
  {
    assert xs == [xs[0]] + xs[1..];
  }

  lemma OneMore(keys: set<Buf>, b: Buf)
    requires b !in keys
    ensures multiset(keys + {b}) == multiset(keys) + multiset{b}
    ensures |keys + {b}| == |keys| + 1
  {
  }

  lemma OneLess(x: multiset<Buf>, y: multiset<Buf>, b: Buf)
    requires x + multiset{b} == y + multiset{b}
    ensures x == y
  {
    assert x == x + multiset{b} - multiset{b};
    assert y == y + multiset{b} - multiset{b};
  }
}
