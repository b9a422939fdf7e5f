/** The single-producer single-consumer queue of typed records, a bounded FIFO in a ring. */
module ProducerConsumerQueues {
  import opened RingIndices

  /** The records from counter r up to counter w. */
  function Window<T>(records: seq<T>, r: nat, w: nat): (q: seq<T>)
    requires r <= w && records != []
    ensures |q| == w - r
  {
    seq(w - r, i requires 0 <= i < w - r => records[(r + i) % |records|])
  }

  lemma SlotKept<T>(records: seq<T>, i: nat, w: nat, x: T)
    requires i < w < i + |records|
    ensures records[w % |records| := x][i % |records|] == records[i % |records|]
  {
    DifferentSlots(|records|, i, w);
  }

  lemma WindowPush<T>(records: seq<T>, r: nat, w: nat, x: T)
    requires r <= w < r + |records|
    ensures Window(records[w % |records| := x], r, w + 1) == Window(records, r, w) + [x]
  {
    var n := |records|;
    var q, q' := Window(records, r, w), Window(records[w % n := x], r, w + 1);
    assert |q'| == |q| + 1;
    assert r + (w - r) == w;
    forall i: nat | i < |q| ensures q'[i] == q[i] { SlotKept(records, r + i, w, x); }
    assert q' == q + [x];
  }

  lemma WindowPop<T>(records: seq<T>, r: nat, w: nat)
    requires r < w && records != []
    ensures Window(records, r, w)[0] == records[r % |records|]
    ensures Window(records, r + 1, w) == Window(records, r, w)[1..]
  {
    var q, q' := Window(records, r, w), Window(records, r + 1, w);
    forall i: nat | i < |q'| ensures q'[i] == q[i + 1] { assert r + 1 + i == r + (i + 1); }
  }

  class ProducerConsumerQueue<T> {
    const size_: nat
    const records_: array<T>
    var readIndex_: nat
    var writeIndex_: nat

    // the two indices without wrap-around
    ghost var r: nat
    ghost var w: nat

    ghost predicate Valid()
      reads this
    {
      && size_ >= 2 && records_.Length == size_
      && readIndex_ == r % size_ && writeIndex_ == w % size_
      && r <= w <= r + size_ - 1
    }

    ghost function Contents(): (q: seq<T>)
      requires Valid()
      reads this, records_
      ensures |q| == w - r
    {
      Window(records_[..], r, w)
    }

    /** One slot stays free, so at most size - 1 records fit. */
    constructor (size: nat, blank: T)
      requires size >= 2
      ensures Valid() && size_ == size && Contents() == [] && fresh(records_)
    {
      size_ := size;
      records_ := new T[size](_ => blank);
      readIndex_, writeIndex_, r, w := 0, 0, 0, 0;
    }

    method Write(x: T) returns (ok: bool)
      requires Valid()
      modifies this, records_
      ensures Valid()
      ensures ok <==> |old(Contents())| < size_ - 1
      ensures Contents() == if ok then old(Contents()) + [x] else old(Contents())
    {
      var nextRecord := NextIndex(writeIndex_, size_);
      NextWraps(w, size_);
      FullWhenEqual(r, w, size_);
      ok := nextRecord != readIndex_;
      if ok {
        WindowPush(records_[..], r, w, x);
        records_[writeIndex_] := x;
        writeIndex_, w := nextRecord, w + 1;
      }
    }

    method Read() returns (ok: bool, x: T)
      requires Valid()
      modifies this`readIndex_, this`r
      ensures Valid()
      ensures ok <==> old(Contents()) != []
      ensures ok ==> x == old(Contents())[0]
      ensures Contents() == if ok then old(Contents())[1..] else old(Contents())
    {
      WithinALap(r, w, size_);
      x := records_[readIndex_];
      ok := readIndex_ != writeIndex_;
      if ok {
        WindowPop(records_[..], r, w);
        NextWraps(r, size_);
        readIndex_, r := NextIndex(readIndex_, size_), r + 1;
      }
    }

    /** frontPtr: the front record in place, if there is one. */
    method Front() returns (ok: bool, x: T)
      requires Valid()
      ensures ok <==> Contents() != []
      ensures ok ==> x == Contents()[0]
    {
      WithinALap(r, w, size_);
      x := records_[readIndex_];
      ok := readIndex_ != writeIndex_;
    }

    method PopFront()
      requires Valid() && Contents() != []
      modifies this`readIndex_, this`r
      ensures Valid() && Contents() == old(Contents())[1..]
    {
      WindowPop(records_[..], r, w);
      NextWraps(r, size_);
      readIndex_, r := NextIndex(readIndex_, size_), r + 1;
    }

    method SizeGuess() returns (n: int)
      requires Valid()
      ensures n == |Contents()|
    {
      SizeGuessExact(r, w, size_);
      n := writeIndex_ as int - readIndex_ as int;
      if n < 0 { n := n + size_; }
    }
  }
}
