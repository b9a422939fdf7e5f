/**
  What a finished reduce means for the data: the computing threads' chunks partition
  the buffer, and each element of it is the reduction of that element of every
  thread's source.
 */
module ReduceResult {
  import opened Counting
  import opened ReduceRounds
  import opened ReduceRoundsSafety
  import opened ReduceRoundsRuns

  // ------------------------------------------------------------------ chunk boundaries

  const CacheLineBytes: nat := 64

  /** The buffer's size: `count` elements of `datatypeBytes`, a divisor of the cache line. */
  datatype Layout = Layout(count: nat, datatypeBytes: nat, threads: nat) {
    predicate Ok() {
      threads >= 1 && (datatypeBytes == 1 || datatypeBytes == 2 || datatypeBytes == 4 || datatypeBytes == 8)
    }

    function SizeBytes(): nat { count * datatypeBytes }

    function CacheLines(): nat {
      SizeBytes() / CacheLineBytes + if SizeBytes() % CacheLineBytes != 0 then 1 else 0
    }

    function LinesPerThread(): nat
      requires Ok()
    {
      if CacheLines() / threads == 0 then 1 else CacheLines() / threads
    }

    function ThreadsComputing(): nat {
      if CacheLines() < threads then CacheLines() else threads
    }

    function LowIdx(t: nat): nat
      requires Ok()
    {
      t * LinesPerThread() * CacheLineBytes / datatypeBytes
    }

    /** Inclusive. */
    function HighIdx(t: nat): int
      requires Ok()
    {
      if (CacheLines() < threads && t == CacheLines() - 1) || t == threads - 1 then count - 1
      else (t + 1) * LinesPerThread() * CacheLineBytes / datatypeBytes - 1
    }
  }

  function PerLine(l: Layout): nat
    requires l.Ok()
  {
    CacheLineBytes / l.datatypeBytes
  }

  lemma WholeElements(l: Layout, k: nat)
    requires l.Ok()
    ensures k * CacheLineBytes / l.datatypeBytes == k * PerLine(l)
    ensures PerLine(l) >= 1 && PerLine(l) * l.datatypeBytes == CacheLineBytes
  {
  }

  /** A line that is not past the last one starts inside the buffer, and the next one covers the end. */
  lemma LinesCover(l: Layout, k: nat)
    requires l.Ok()
    ensures k < l.CacheLines() <==> k * PerLine(l) < l.count
  {
    var b := l.SizeBytes();
    WholeElements(l, k);
    assert k < l.CacheLines() <==> k * CacheLineBytes < b;
    assert k * CacheLineBytes == k * PerLine(l) * l.datatypeBytes by {
      assert k * (PerLine(l) * l.datatypeBytes) == k * PerLine(l) * l.datatypeBytes;
    }
    Cancel(k * PerLine(l), l.count, l.datatypeBytes);
  }

  lemma Cancel(x: int, y: int, d: nat)
    requires d > 0
    ensures x * d < y * d <==> x < y
  {
  }

  /** Where a computing thread's chunk starts and ends, in whole lines. */
  lemma ChunkLines(l: Layout, t: nat)
    requires l.Ok() && t < l.ThreadsComputing()
    ensures l.LowIdx(t) == t * l.LinesPerThread() * PerLine(l)
    ensures l.LowIdx(t + 1) == (t + 1) * l.LinesPerThread() * PerLine(l)
    ensures t * l.LinesPerThread() < l.CacheLines()
    ensures l.HighIdx(t) == if t == l.ThreadsComputing() - 1 then l.count - 1 else l.LowIdx(t + 1) - 1
  {
    hide l.CacheLines, l.LinesPerThread, PerLine;
    var lpt := l.LinesPerThread();
    WholeElements(l, t * lpt);
    WholeElements(l, (t + 1) * lpt);
    LinesSuffice(l);
    StartsBefore(t, l.ThreadsComputing(), lpt);
  }

  lemma LinesSuffice(l: Layout)
    requires l.Ok()
    ensures l.LinesPerThread() >= 1 && l.ThreadsComputing() * l.LinesPerThread() <= l.CacheLines()
  {
    hide l.CacheLines;
    var lines := l.CacheLines();
    if lines < l.threads {
      assert lines / l.threads == 0;
    } else {
      Quotient(lines, l.threads);
    }
  }

  lemma Quotient(lines: nat, threads: nat)
    requires 1 <= threads <= lines
    ensures 1 <= lines / threads && threads * (lines / threads) <= lines
  {
    assert lines == threads * (lines / threads) + lines % threads;
  }

  /** The computing threads' chunks are non-empty and abut, from the first element to the last. */
  lemma ChunksAbut(l: Layout, t: nat)
    requires l.Ok() && t < l.ThreadsComputing()
    ensures 0 <= l.LowIdx(t) <= l.HighIdx(t) < l.count
    ensures t == 0 ==> l.LowIdx(t) == 0
    ensures if t == l.ThreadsComputing() - 1 then l.HighIdx(t) == l.count - 1 else l.HighIdx(t) + 1 == l.LowIdx(t + 1)
  {
    hide *;
    hide l.LowIdx, l.HighIdx, l.LinesPerThread;
    ChunkLines(l, t);
    LinesCover(l, t * l.LinesPerThread());
    WholeElements(l, 1);
    LinesSuffice(l);
    if t + 1 < l.ThreadsComputing() {
      ChunkLines(l, t + 1);
      LinesCover(l, (t + 1) * l.LinesPerThread());
      Grows(t, l.LinesPerThread(), PerLine(l));
    }
  }

  lemma Grows(t: nat, lpt: nat, p: nat)
    requires lpt >= 1 && p >= 1
    ensures t * lpt * p < (t + 1) * lpt * p
  {
    assert (t + 1) * lpt * p == t * lpt * p + lpt * p;
  }

  lemma StartsBefore(t: nat, n: nat, lpt: nat)
    requires t < n && lpt >= 1
    ensures t * lpt < n * lpt
  {
  }

  /** The thread whose chunk holds element i. */
  lemma {:induction false} FindOwner(l: Layout, i: nat, n: nat) returns (t: nat)
    requires l.Ok() && n < l.ThreadsComputing() && i <= l.HighIdx(n)
    ensures t <= n && l.LowIdx(t) <= i <= l.HighIdx(t)
  {
    ChunksAbut(l, n);
    if i >= l.LowIdx(n) { return n; }
    ChunksAbut(l, n - 1);
    t := FindOwner(l, i, n - 1);
  }

  lemma {:induction false} LaterChunk(l: Layout, t: nat, u: nat)
    requires l.Ok() && t < u < l.ThreadsComputing()
    ensures l.HighIdx(t) < l.LowIdx(u)
    decreases u
  {
    ChunksAbut(l, t);
    ChunksAbut(l, u - 1);
    if t < u - 1 { LaterChunk(l, t, u - 1); }
  }

  /** Every element lies in exactly one computing thread's chunk. */
  lemma ChunksPartition(l: Layout, i: nat)
    requires l.Ok() && i < l.count
    ensures exists t :: 0 <= t < l.ThreadsComputing() && l.LowIdx(t) <= i <= l.HighIdx(t)
    ensures forall t, u :: 0 <= t < l.ThreadsComputing() && 0 <= u < l.ThreadsComputing() && t != u ==>
              !(l.LowIdx(t) <= i <= l.HighIdx(t) && l.LowIdx(u) <= i <= l.HighIdx(u))
  {
    LinesCover(l, 0);
    var n := l.ThreadsComputing();
    ChunksAbut(l, n - 1);
    var t := FindOwner(l, i, n - 1);
    forall t: nat, u: nat | t < n && u < n && t != u
      ensures !(l.LowIdx(t) <= i <= l.HighIdx(t) && l.LowIdx(u) <= i <= l.HighIdx(u))
    {
      if t < u { LaterChunk(l, t, u); } else { LaterChunk(l, u, t); }
    }
  }

  lemma LinesAreLeast(l: Layout)
    requires l.Ok()
    ensures l.SizeBytes() <= l.CacheLines() * CacheLineBytes < l.SizeBytes() + CacheLineBytes
  {
  }

  /**
    The work is shared out in whole cache lines, as evenly as they go: every chunk
    starts on a line; with fewer lines than threads each computing thread has one, and
    otherwise all but the last have the same number, the lines divided by the threads.
   */
  lemma ChunksBalanced(l: Layout, t: nat)
    requires l.Ok() && t < l.ThreadsComputing()
    ensures var lines := l.CacheLines();
            var each := l.LinesPerThread();
            && l.SizeBytes() <= lines * CacheLineBytes < l.SizeBytes() + CacheLineBytes
            && (if lines < l.threads then each == 1 && l.ThreadsComputing() == lines
                else l.threads * each <= lines < l.threads * (each + 1) && l.ThreadsComputing() == l.threads)
            && l.LowIdx(t) * l.datatypeBytes == t * each * CacheLineBytes
            && (t + 1 < l.ThreadsComputing() ==>
                  (l.HighIdx(t) + 1 - l.LowIdx(t)) * l.datatypeBytes == each * CacheLineBytes)
  {
    LinesAreLeast(l);
    EvenShare(l.CacheLines(), l.threads);
    hide l.CacheLines, l.LowIdx, l.HighIdx, PerLine;
    var each := l.LinesPerThread();
    ChunkLines(l, t);
    WholeElements(l, t * each);
    InBytes(t * each, PerLine(l), l.datatypeBytes);
    InBytes((t + 1) * each, PerLine(l), l.datatypeBytes);
    assert (t + 1) * each * CacheLineBytes == t * each * CacheLineBytes + each * CacheLineBytes by {
      assert (t + 1) * each == t * each + each;
    }
    if t + 1 < l.ThreadsComputing() { Difference(l.LowIdx(t + 1), l.LowIdx(t), l.datatypeBytes); }
  }

  lemma InBytes(lines: nat, perLine: nat, bytes: nat)
    requires perLine * bytes == CacheLineBytes
    ensures lines * perLine * bytes == lines * CacheLineBytes
  {
    assert lines * perLine * bytes == lines * (perLine * bytes);
  }

  lemma Difference(x: int, y: int, d: int)
    ensures (x - y) * d == x * d - y * d
  {
  }

  lemma EvenShare(lines: nat, threads: nat)
    requires threads >= 1
    ensures lines < threads ==> lines / threads == 0
    ensures lines >= threads ==>
              1 <= lines / threads && threads * (lines / threads) <= lines < threads * (lines / threads + 1)
  {
    if lines >= threads { Quotient(lines, threads); }
    assert lines == threads * (lines / threads) + lines % threads;
    assert threads * (lines / threads + 1) == threads * (lines / threads) + threads;
  }

  // ------------------------------------------------------------------ what the chunk holds

  type Value(==, !new)

  /** The values a chunk element went through: the first is copied, the others are reduced into it. */
  function Accumulated(op: (Value, Value) -> Value, element: Src -> Value, a: seq<Src>): Value
    requires a != []
  {
    var last := element(a[|a| - 1]);
    if |a| == 1 then last else op(Accumulated(op, element, a[..|a| - 1]), last)
  }

  /** Every thread's source of round r, in thread order. */
  function InOrder(n: nat, r: nat): (a: seq<Src>)
    ensures |a| == n && forall i :: 0 <= i < n ==> a[i] == Src(i, r)
  {
    if n == 0 then [] else InOrder(n - 1, r) + [Src(n - 1, r)]
  }

  ghost predicate Commutes(op: (Value, Value) -> Value) {
    && (forall x, y :: op(x, y) == op(y, x))
    && (forall x, y, z :: op(op(x, y), z) == op(x, op(y, z)))
  }

  function Without(a: seq<Src>, i: nat): seq<Src>
    requires i < |a|
  {
    a[..i] + a[i + 1..]
  }

  /** Any element may be accumulated last. */
  lemma {:induction false} MoveLast(op: (Value, Value) -> Value, element: Src -> Value, a: seq<Src>, i: nat)
    requires Commutes(op) && i < |a| && |a| >= 2
    ensures Accumulated(op, element, a) == op(Accumulated(op, element, Without(a, i)), element(a[i]))
  {
    var n := |a| - 1;
    if i == n {
      assert Without(a, i) == a[..n];
    } else if n == 1 {
      assert Without(a, i) == [a[1]] && a[..1] == [a[0]];
    } else {
      var front := a[..n];
      MoveLast(op, element, front, i);
      assert Without(a, i)[..n - 1] == Without(front, i);
      var x, y, z := Accumulated(op, element, Without(front, i)), element(a[i]), element(a[n]);
      assert op(op(x, y), z) == op(x, op(y, z)) == op(x, op(z, y)) == op(op(x, z), y);
    }
  }

  lemma ExactlyWithout(a: seq<Src>, n: nat, r: nat, i: nat)
    requires Exactly(a, Below(n), r) && n > 0 && i < |a| && a[i] == Src(n - 1, r)
    ensures Exactly(Without(a, i), Below(n - 1), r)
  {
    hide Below;
    var w := Without(a, i);
    forall j | j in Below(n - 1) ensures Src(j, r) in w {
      var k :| 0 <= k < |a| && a[k] == Src(j, r);
      assert w[if k < i then k else k - 1] == a[k];
    }
    forall k | 0 <= k < |w| ensures w[k].round == r && w[k].thread in Below(n - 1) {
      assert w[k] == a[if k < i then k else k + 1];
    }
  }

  lemma Find(a: seq<Src>, n: nat, r: nat) returns (i: nat)
    requires Exactly(a, Below(n), r) && n > 0
    ensures i < |a| && a[i] == Src(n - 1, r)
  {
    assert n - 1 in Below(n);
    i :| 0 <= i < |a| && a[i] == Src(n - 1, r);
  }

  lemma Member(a: seq<Src>, who: set<nat>, r: nat, i: nat)
    requires Exactly(a, who, r) && i < |a|
    ensures a[i].thread in who
  {
  }

  lemma OnlyOne(a: seq<Src>, r: nat)
    requires Exactly(a, Below(0), r)
    ensures a == []
  {
    if a != [] { Member(a, Below(0), r, 0); }
  }

  /** However the sources were scanned, the result is theirs reduced in thread order. */
  lemma {:induction false} OrderIrrelevant(op: (Value, Value) -> Value, element: Src -> Value, a: seq<Src>, n: nat, r: nat)
    requires Commutes(op) && n > 0 && Exactly(a, Below(n), r)
    ensures |a| == n
    ensures Accumulated(op, element, a) == Accumulated(op, element, InOrder(n, r))
  {
    hide Below, Commutes, Exactly;
    var i := Find(a, n, r);
    ExactlyWithout(a, n, r, i);
    if n == 1 {
      OnlyOne(Without(a, i), r);
      assert a == [Src(0, r)] == InOrder(1, r);
    } else {
      OrderIrrelevant(op, element, Without(a, i), n - 1, r);
      MoveLast(op, element, a, i);
      assert InOrder(n, r)[..n - 1] == InOrder(n - 1, r);
    }
  }

  /**
    Over every run: in every published round each element of the buffer belongs to one
    computing thread, whose chunk holds the reduction of all threads' sources of that round.
   */
  lemma {:induction false} ReduceIsReduction(cfg: Config, l: Layout, sched: Schedule, r: nat, i: nat,
                          op: (Value, Value) -> Value, element: Src -> Value)
    requires cfg.Ok() && Legal(cfg, sched)
    requires l.Ok() && l.threads == cfg.threads && l.ThreadsComputing() == cfg.computing
    requires Commutes(op) && i < l.count && r < |After(cfg, sched).published|
    ensures var p := After(cfg, sched).published[r];
            exists t :: 0 <= t < |p| && t < cfg.computing && l.LowIdx(t) <= i <= l.HighIdx(t)
              && p[t] != []
              && Accumulated(op, element, p[t]) == Accumulated(op, element, InOrder(cfg.threads, r))
  {
    ResultsComplete(cfg, sched);
    ChunksPartition(l, i);
    var t :| 0 <= t < l.ThreadsComputing() && l.LowIdx(t) <= i <= l.HighIdx(t);
    var p := After(cfg, sched).published[r];
    assert Complete(cfg, p, r);
    OrderIrrelevant(op, element, p[t], cfg.threads, r);
  }
}
